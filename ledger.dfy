/** The play-to-earn ledger as a value: its state, its read-only queries and,
    for every public operation, the transition it makes (new state and
    result). The class in module Engine performs the same transitions in
    place; modules LedgerProperties and LedgerTraces prove lemmas about these
    definitions. */
module Ledger {

  /** An account identifier (owner, admin or player), compared by value. */
  type Principal = string

  /** Achievement ids are chosen by the caller. */
  type AchievementId = int

  /** A claim is recorded per (player, achievement) pair. */
  type ClaimKey = (Principal, AchievementId)

  datatype Achievement = Achievement(name: string, description: string, rewardAmount: int, active: bool)

  datatype PlayerStats = PlayerStats(tokenBalance: int)

  /** The failures the contract reports. */
  datatype Error =
    | OwnerOnly
    | NotFound
    | AchievementExists
    | Unauthorized
    | InvalidAmount
    | AlreadyClaimed
    | InsufficientBalance

  /** The numeric code returned as `{ err: code }`; the peer transfer's
      "not enough tokens" uses the bare code 1. */
  function Code(e: Error): (c: int)
    ensures e == OwnerOnly ==> c == 100
    ensures e == NotFound ==> c == 101
    ensures e == AchievementExists ==> c == 102
    ensures e == Unauthorized ==> c == 103
    ensures e == InvalidAmount ==> c == 104
    ensures e == AlreadyClaimed ==> c == 105
    ensures e == InsufficientBalance ==> c == 1
  {
    match e
    case OwnerOnly => 100
    case NotFound => 101
    case AchievementExists => 102
    case Unauthorized => 103
    case InvalidAmount => 104
    case AlreadyClaimed => 105
    case InsufficientBalance => 1
  }

  /** Distinct failures are reported with distinct codes. */
  lemma CodeInjective(e1: Error, e2: Error)
    ensures Code(e1) == Code(e2) ==> e1 == e2
  {
  }

  /** `{ ok: value }` or `{ err: code }`. */
  datatype Result<T> = Ok(value: T) | Err(error: Error)

  /** The whole contract state. A balance, admin flag or claim with no entry
      reads as 0, false and false respectively. */
  datatype State = State(
    owner: Principal,
    balances: map<Principal, int>,
    achievements: map<AchievementId, Achievement>,
    claims: map<ClaimKey, bool>,
    admins: map<Principal, bool>)

  /** What a mutating call leaves behind and what it returns. */
  datatype Transition = Transition(next: State, result: Result<bool>)

  /** The state right after deployment: every map empty. */
  function Init(owner: Principal): State
  {
    State(owner, map[], map[], map[], map[])
  }

  // ---------------------------------------------------------------------
  // Helpers shared by the operations

  /** A balance, with a missing entry read as 0. */
  function BalanceOf(m: map<Principal, int>, p: Principal): int
  {
    if p in m then m[p] else 0
  }

  /** `m` with `amount` added to `p`'s balance; the other accounts keep theirs. */
  function Credit(m: map<Principal, int>, p: Principal, amount: int): (r: map<Principal, int>)
    ensures BalanceOf(r, p) == BalanceOf(m, p) + amount
    ensures forall q :: q != p ==> BalanceOf(r, q) == BalanceOf(m, q)
  {
    m[p := BalanceOf(m, p) + amount]
  }

  /** Debits `from`, then credits `to` reading the balance map as the debit
      left it, so a move from an account to itself changes nothing. */
  function Move(m: map<Principal, int>, from: Principal, to: Principal, amount: int): (r: map<Principal, int>)
    ensures from == to ==> BalanceOf(r, from) == BalanceOf(m, from)
    ensures from != to ==> BalanceOf(r, from) == BalanceOf(m, from) - amount
    ensures from != to ==> BalanceOf(r, to) == BalanceOf(m, to) + amount
    ensures forall q :: q != from && q != to ==> BalanceOf(r, q) == BalanceOf(m, q)
  {
    var debited := m[from := BalanceOf(m, from) - amount];
    debited[to := BalanceOf(debited, to) + amount]
  }

  predicate IsAdmin(s: State, p: Principal)
  {
    p in s.admins && s.admins[p]
  }

  /** The gate of the achievement operations and of the admin transfer. */
  predicate IsAdminOrOwner(s: State, p: Principal)
  {
    p == s.owner || IsAdmin(s, p)
  }

  predicate Claimed(s: State, player: Principal, id: AchievementId)
  {
    (player, id) in s.claims && s.claims[(player, id)]
  }

  // ---------------------------------------------------------------------
  // Read-only queries

  function GetTokenBalance(s: State, account: Principal): (r: Result<int>)
    ensures r.Ok?
    ensures account !in s.balances ==> r.value == 0
    ensures account in s.balances ==> r.value == s.balances[account]
  {
    Ok(BalanceOf(s.balances, account))
  }

  function GetAchievement(s: State, id: AchievementId): (r: Result<Achievement>)
    ensures r.Ok? <==> id in s.achievements
    ensures r.Ok? ==> r.value == s.achievements[id]
    ensures r.Err? ==> r.error == NotFound
  {
    if id in s.achievements then Ok(s.achievements[id]) else Err(NotFound)
  }

  function CheckAchievementClaimed(s: State, player: Principal, id: AchievementId): (r: Result<bool>)
    ensures r.Ok?
    ensures (player, id) !in s.claims ==> r.value == false
    ensures (player, id) in s.claims ==> r.value == s.claims[(player, id)]
  {
    Ok(Claimed(s, player, id))
  }

  function CheckIsAdmin(s: State, account: Principal): (r: Result<bool>)
    ensures r.Ok?
    ensures account !in s.admins ==> r.value == false
    ensures account in s.admins ==> r.value == s.admins[account]
  {
    Ok(IsAdmin(s, account))
  }

  function GetPlayerStats(s: State, player: Principal): (r: Result<PlayerStats>)
    ensures r.Ok?
    ensures r.value.tokenBalance == GetTokenBalance(s, player).value
  {
    Ok(PlayerStats(BalanceOf(s.balances, player)))
  }

  // ---------------------------------------------------------------------
  // Mutating operations, each checked in the order the contract checks

  /** Mints `amount` to the owner; the amount is not validated. */
  function InitializeTokenSupply(s: State, amount: int, sender: Principal): Transition
  {
    if sender != s.owner then Transition(s, Err(OwnerOnly))
    else Transition(s.(balances := Credit(s.balances, s.owner, amount)), Ok(true))
  }

  function AddGameAdmin(s: State, admin: Principal, sender: Principal): Transition
  {
    if sender != s.owner then Transition(s, Err(OwnerOnly))
    else Transition(s.(admins := s.admins[admin := true]), Ok(true))
  }

  /** Removal keeps the entry and sets it to false. */
  function RemoveGameAdmin(s: State, admin: Principal, sender: Principal): Transition
  {
    if sender != s.owner then Transition(s, Err(OwnerOnly))
    else Transition(s.(admins := s.admins[admin := false]), Ok(true))
  }

  function AddAchievement(s: State, id: AchievementId, name: string, description: string,
                          rewardAmount: int, sender: Principal): Transition
  {
    if !IsAdminOrOwner(s, sender) then Transition(s, Err(Unauthorized))
    else if id in s.achievements then Transition(s, Err(AchievementExists))
    else
      var record := Achievement(name, description, rewardAmount, true);
      Transition(s.(achievements := s.achievements[id := record]), Ok(true))
  }

  /** Replaces all four fields, `active` included. */
  function UpdateAchievement(s: State, id: AchievementId, name: string, description: string,
                             rewardAmount: int, active: bool, sender: Principal): Transition
  {
    if !IsAdminOrOwner(s, sender) then Transition(s, Err(Unauthorized))
    else if id !in s.achievements then Transition(s, Err(NotFound))
    else
      var record := Achievement(name, description, rewardAmount, active);
      Transition(s.(achievements := s.achievements[id := record]), Ok(true))
  }

  /** Marks the pair claimed and pays the reward out of the owner's balance,
      whoever the awarding sender is, without a funds check. An inactive
      achievement is reported as NotFound. */
  function AwardAchievement(s: State, player: Principal, id: AchievementId, sender: Principal): Transition
  {
    if !IsAdminOrOwner(s, sender) then Transition(s, Err(Unauthorized))
    else if id !in s.achievements || !s.achievements[id].active then Transition(s, Err(NotFound))
    else if Claimed(s, player, id) then Transition(s, Err(AlreadyClaimed))
    else
      var reward := s.achievements[id].rewardAmount;
      Transition(s.(claims := s.claims[(player, id) := true],
                    balances := Move(s.balances, s.owner, player, reward)),
                 Ok(true))
  }

  /** Moves `amount` from the owner to `recipient`, without a funds check. */
  function WithdrawTokens(s: State, amount: int, recipient: Principal, sender: Principal): Transition
  {
    if sender != s.owner then Transition(s, Err(OwnerOnly))
    else if amount <= 0 then Transition(s, Err(InvalidAmount))
    else Transition(s.(balances := Move(s.balances, s.owner, recipient, amount)), Ok(true))
  }

  /** A holder moves its own tokens; needs no authorisation but enough funds. */
  function TransferBetweenPlayers(s: State, amount: int, sender: Principal, recipient: Principal): Transition
  {
    if amount <= 0 then Transition(s, Err(InvalidAmount))
    else if BalanceOf(s.balances, sender) < amount then Transition(s, Err(InsufficientBalance))
    else Transition(s.(balances := Move(s.balances, sender, recipient, amount)), Ok(true))
  }

  /** An admin or the owner moves `sender`'s tokens, without a funds check. */
  function AdminTransferBetweenPlayers(s: State, amount: int, sender: Principal, recipient: Principal,
                                       admin: Principal): Transition
  {
    if !IsAdminOrOwner(s, admin) then Transition(s, Err(Unauthorized))
    else if amount <= 0 then Transition(s, Err(InvalidAmount))
    else Transition(s.(balances := Move(s.balances, sender, recipient, amount)), Ok(true))
  }

  /** Delegates with the player as the awarding sender. */
  function AwardAchievementToPlayer1(s: State, id: AchievementId, player: Principal): Transition
  {
    AwardAchievement(s, player, id, player)
  }

  /** Repeats the admin-or-owner gate, then delegates. */
  function AwardAchievementToPlayer2(s: State, player: Principal, id: AchievementId, sender: Principal): Transition
  {
    if !IsAdminOrOwner(s, sender) then Transition(s, Err(Unauthorized))
    else AwardAchievement(s, player, id, sender)
  }
}
