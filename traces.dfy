/** Invariants over any sequence of calls: the owner never changes, a failed
    call changes nothing, a claim is never taken back, an achievement is never
    deleted, and the supply moves only by what the owner mints. */
module LedgerTraces {
  import opened Supply
  import opened Ledger
  import opened LedgerProperties

  /** One call to a mutating operation, with its arguments. */
  datatype Call =
    | InitializeTokenSupplyCall(amount: int, sender: Principal)
    | AddGameAdminCall(admin: Principal, sender: Principal)
    | RemoveGameAdminCall(admin: Principal, sender: Principal)
    | AddAchievementCall(id: AchievementId, name: string, description: string, rewardAmount: int, sender: Principal)
    | UpdateAchievementCall(id: AchievementId, name: string, description: string, rewardAmount: int, active: bool, sender: Principal)
    | AwardAchievementCall(player: Principal, id: AchievementId, sender: Principal)
    | WithdrawTokensCall(amount: int, recipient: Principal, sender: Principal)
    | TransferBetweenPlayersCall(amount: int, sender: Principal, recipient: Principal)
    | AdminTransferBetweenPlayersCall(amount: int, sender: Principal, recipient: Principal, admin: Principal)
    | AwardAchievementToPlayer1Call(id: AchievementId, player: Principal)
    | AwardAchievementToPlayer2Call(player: Principal, id: AchievementId, sender: Principal)

  function Apply(s: State, c: Call): Transition
  {
    match c
    case InitializeTokenSupplyCall(amount, sender) => InitializeTokenSupply(s, amount, sender)
    case AddGameAdminCall(admin, sender) => AddGameAdmin(s, admin, sender)
    case RemoveGameAdminCall(admin, sender) => RemoveGameAdmin(s, admin, sender)
    case AddAchievementCall(id, name, description, reward, sender) =>
      AddAchievement(s, id, name, description, reward, sender)
    case UpdateAchievementCall(id, name, description, reward, active, sender) =>
      UpdateAchievement(s, id, name, description, reward, active, sender)
    case AwardAchievementCall(player, id, sender) => AwardAchievement(s, player, id, sender)
    case WithdrawTokensCall(amount, recipient, sender) => WithdrawTokens(s, amount, recipient, sender)
    case TransferBetweenPlayersCall(amount, sender, recipient) =>
      TransferBetweenPlayers(s, amount, sender, recipient)
    case AdminTransferBetweenPlayersCall(amount, sender, recipient, admin) =>
      AdminTransferBetweenPlayers(s, amount, sender, recipient, admin)
    case AwardAchievementToPlayer1Call(id, player) => AwardAchievementToPlayer1(s, id, player)
    case AwardAchievementToPlayer2Call(player, id, sender) => AwardAchievementToPlayer2(s, player, id, sender)
  }

  /** The state after performing `calls` in order, each on its predecessor's result. */
  function Run(s: State, calls: seq<Call>): State
    decreases |calls|
  {
    if calls == [] then s else Run(Apply(s, calls[0]).next, calls[1..])
  }

  /** What one call mints: the amount of an owner's InitializeTokenSupply, else 0. */
  function MintedBy(s: State, c: Call): int
  {
    if c.InitializeTokenSupplyCall? && c.sender == s.owner then c.amount else 0
  }

  /** Everything minted along the run of `calls` from `s`. */
  function Minted(s: State, calls: seq<Call>): int
    decreases |calls|
  {
    if calls == [] then 0 else MintedBy(s, calls[0]) + Minted(Apply(s, calls[0]).next, calls[1..])
  }

  /** One call: a failure leaves the state as it was, the owner stays, no
      claim is reset and no achievement disappears. */
  lemma ApplyPreserves(s: State, c: Call)
    ensures var t := Apply(s, c);
      && (t.result.Err? ==> t.next == s)
      && t.next.owner == s.owner
      && (forall k :: k in s.claims && s.claims[k] ==> k in t.next.claims && t.next.claims[k])
      && t.next.achievements.Keys >= s.achievements.Keys
  {
  }

  /** One call changes the supply by what it mints and nothing more. */
  lemma ApplySupply(s: State, c: Call)
    ensures Total(Apply(s, c).next.balances) == Total(s.balances) + MintedBy(s, c)
  {
    match c
    case InitializeTokenSupplyCall(amount, sender) => MintSupply(s, amount, sender);
    case AwardAchievementCall(player, id, sender) => AwardConserves(s, player, id, sender);
    case WithdrawTokensCall(amount, recipient, sender) => WithdrawSpec(s, amount, recipient, sender);
    case TransferBetweenPlayersCall(amount, sender, recipient) =>
      TransferConserves(s, amount, sender, recipient);
    case AdminTransferBetweenPlayersCall(amount, sender, recipient, admin) =>
      AdminTransferSpec(s, amount, sender, recipient, admin);
    case AwardAchievementToPlayer1Call(id, player) => AwardConserves(s, player, id, player);
    case AwardAchievementToPlayer2Call(player, id, sender) => AwardConserves(s, player, id, sender);
    case _ =>
  }

  /** Over any run, the owner is the one fixed at the start. */
  lemma {:induction false} RunKeepsOwner(s: State, calls: seq<Call>)
    ensures Run(s, calls).owner == s.owner
    decreases |calls|
  {
    if calls != [] {
      ApplyPreserves(s, calls[0]);
      RunKeepsOwner(Apply(s, calls[0]).next, calls[1..]);
    }
  }

  /** Over any run, a pair once claimed stays claimed (so a pair goes from
      unclaimed to claimed at most once), and a registered achievement id
      stays registered. */
  lemma {:induction false} RunKeepsClaimsAndAchievements(s: State, calls: seq<Call>)
    ensures forall k :: k in s.claims && s.claims[k] ==> k in Run(s, calls).claims && Run(s, calls).claims[k]
    ensures Run(s, calls).achievements.Keys >= s.achievements.Keys
    decreases |calls|
  {
    if calls != [] {
      ApplyPreserves(s, calls[0]);
      RunKeepsClaimsAndAchievements(Apply(s, calls[0]).next, calls[1..]);
    }
  }

  /** Over any run, the supply grows by exactly what the owner minted:
      awards, withdrawals and both transfers only redistribute. */
  lemma {:induction false} RunSupply(s: State, calls: seq<Call>)
    ensures Total(Run(s, calls).balances) == Total(s.balances) + Minted(s, calls)
    decreases |calls|
  {
    if calls != [] {
      ApplySupply(s, calls[0]);
      RunSupply(Apply(s, calls[0]).next, calls[1..]);
    }
  }

  /** From deployment, the supply is exactly what the owner has minted. */
  lemma SupplyFromDeployment(owner: Principal, calls: seq<Call>)
    ensures Total(Run(Init(owner), calls).balances) == Minted(Init(owner), calls)
  {
    RunSupply(Init(owner), calls);
  }
}
