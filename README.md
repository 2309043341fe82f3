# CyberEstate play-to-earn ledger

A Dafny model of the play-to-earn game contract of CyberEstate. The contract
is one ledger. It records:

- a fixed owner;
- a token balance per account;
- a registry of achievements, each with a reward;
- which (player, achievement) pairs have been claimed;
- a map of admin flags.

The owner alone mints, withdraws and manages admins. The owner or an admin
manages achievements, awards them and directs transfers. Any holder can move
its own tokens to another account. Every failure is returned as a value,
`{ err: code }`, and leaves the state unchanged.

The model has four parts:

- `Ledger` (ledger.dfy): the state as a value. It defines the read-only
  queries and, for each mutating operation, the transition it makes: the new
  state and the result. It also maps errors to their codes (100–105, and 1
  for a peer transfer without enough funds).
- `Engine` (engine.dfy): the contract object. Class `LedgerEngine` keeps
  balances, achievements, claims and admin flags in mutable map fields. Each
  method runs the contract's checks and map writes in the contract's order.
  It is proved to make exactly the transition `Ledger` defines. The owner is
  a `const` field, since no operation assigns it.
- `Supply` (supply.dfy) and `LedgerProperties` (properties.dfy): the token
  supply (the sum of all balances) and the lemmas about each operation. These
  cover the authorisation matrix, the order of error checks, the effect on
  every map, conservation, at-most-once claiming, and the unguarded debits.
- `LedgerTraces` (traces.dfy): invariants over any sequence of calls. The
  owner never changes. A failure changes nothing. Claims and achievements are
  never removed. The supply grows only by what the owner mints.

Facts about the code that a reader might not expect:

- A withdrawal moves tokens from the owner to the recipient. It is zero-sum
  and does not destroy supply.
- Balances can go negative. The award (owner pays the reward), the
  withdrawal and the admin transfer check no funds. Minting accepts any
  amount, including a negative one.
- `awardAchievementToPlayer1` uses the player as the awarding sender. A
  player that is neither owner nor admin therefore gets `Unauthorized`. The
  accompanying test expects success; the code does not give it.

## Model

| member | source | states |
|---|---|---|
| Ledger.Code | cyberestate/tests/stx_cyberestate.test.ts:20-25 | OwnerOnly, NotFound, AchievementExists, Unauthorized, InvalidAmount and AlreadyClaimed have the codes 100, 101, 102, 103, 104 and 105; insufficient balance has the bare code 1 |
| Ledger.CodeInjective | cyberestate/tests/stx_cyberestate.test.ts:20-25 | distinct failures never share a code |
| Ledger.Credit | cyberestate/tests/stx_cyberestate.test.ts:58 | the credited account gains exactly `amount` (a missing entry counting as 0) and every other account keeps its balance |
| Ledger.Move | cyberestate/tests/stx_cyberestate.test.ts:136-137 | debit-then-credit with the credit reading the debited map: distinct accounts lose and gain `amount`, an account moving to itself is unchanged, all others unchanged |
| Ledger.GetTokenBalance | cyberestate/tests/stx_cyberestate.test.ts:29-31 | always succeeds; the stored balance, or 0 for an account with no entry |
| Ledger.GetAchievement | cyberestate/tests/stx_cyberestate.test.ts:33-38 | succeeds exactly when the id is registered, with the stored record; NotFound otherwise |
| Ledger.CheckAchievementClaimed | cyberestate/tests/stx_cyberestate.test.ts:40-46 | always succeeds; false for a pair with no claim record, else the recorded flag |
| Ledger.CheckIsAdmin | cyberestate/tests/stx_cyberestate.test.ts:48-50 | always succeeds; false for an account never added, else its flag |
| Ledger.GetPlayerStats | cyberestate/tests/stx_cyberestate.test.ts:157-163 | always succeeds, and its token balance is the one GetTokenBalance reports |
| Engine.LedgerEngine.constructor | cyberestate/tests/stx_cyberestate.test.ts:5-13 | the deployed state: the given owner and every map empty |
| Engine.LedgerEngine.Authorized | cyberestate/tests/stx_cyberestate.test.ts:81 | the field-level gate is exactly "sender is the owner or a flagged admin" |
| Engine.LedgerEngine.InitializeTokenSupply | cyberestate/tests/stx_cyberestate.test.ts:53-60 | the in-place mint makes the new state and result that Ledger.InitializeTokenSupply prescribes |
| Engine.LedgerEngine.AddGameAdmin | cyberestate/tests/stx_cyberestate.test.ts:62-69 | the in-place update makes the transition of Ledger.AddGameAdmin |
| Engine.LedgerEngine.RemoveGameAdmin | cyberestate/tests/stx_cyberestate.test.ts:71-78 | the in-place update makes the transition of Ledger.RemoveGameAdmin |
| Engine.LedgerEngine.AddAchievement | cyberestate/tests/stx_cyberestate.test.ts:80-97 | the in-place update makes the transition of Ledger.AddAchievement |
| Engine.LedgerEngine.UpdateAchievement | cyberestate/tests/stx_cyberestate.test.ts:99-116 | the in-place update makes the transition of Ledger.UpdateAchievement |
| Engine.LedgerEngine.AwardAchievement | cyberestate/tests/stx_cyberestate.test.ts:118-140 | the checks and the three writes, in order, make the transition of Ledger.AwardAchievement |
| Engine.LedgerEngine.WithdrawTokens | cyberestate/tests/stx_cyberestate.test.ts:142-155 | the in-place debit and credit make the transition of Ledger.WithdrawTokens |
| Engine.LedgerEngine.TransferBetweenPlayers | cyberestate/tests/stx_cyberestate.test.ts:165-178 | the in-place debit and credit make the transition of Ledger.TransferBetweenPlayers |
| Engine.LedgerEngine.AdminTransferBetweenPlayers | cyberestate/tests/stx_cyberestate.test.ts:180-193 | the in-place debit and credit make the transition of Ledger.AdminTransferBetweenPlayers |
| Engine.LedgerEngine.AwardAchievementToPlayer1 | cyberestate/tests/stx_cyberestate.test.ts:196-198 | delegating with the player as sender makes the transition of Ledger.AwardAchievementToPlayer1 |
| Engine.LedgerEngine.AwardAchievementToPlayer2 | cyberestate/tests/stx_cyberestate.test.ts:200-205 | the extra gate plus delegation makes the transition of Ledger.AwardAchievementToPlayer2 |
| Engine.LedgerEngine.GetTokenBalance | cyberestate/tests/stx_cyberestate.test.ts:29-31 | reading the fields gives Ledger.GetTokenBalance of the object's state |
| Engine.LedgerEngine.GetAchievement | cyberestate/tests/stx_cyberestate.test.ts:33-38 | reading the fields gives Ledger.GetAchievement of the object's state |
| Engine.LedgerEngine.CheckAchievementClaimed | cyberestate/tests/stx_cyberestate.test.ts:40-46 | reading the fields gives Ledger.CheckAchievementClaimed of the object's state |
| Engine.LedgerEngine.CheckIsAdmin | cyberestate/tests/stx_cyberestate.test.ts:48-50 | reading the fields gives Ledger.CheckIsAdmin of the object's state |
| Engine.LedgerEngine.GetPlayerStats | cyberestate/tests/stx_cyberestate.test.ts:157-163 | reading the fields gives Ledger.GetPlayerStats of the object's state |
| LedgerProperties.CreditSupply | cyberestate/tests/stx_cyberestate.test.ts:58 | crediting one account raises the sum of all balances by exactly the amount |
| LedgerProperties.MoveConserves | cyberestate/tests/stx_cyberestate.test.ts:136-137 | a debit-then-credit move leaves the sum of all balances unchanged, also when the two accounts coincide |
| LedgerProperties.OwnerOnlyGate | cyberestate/tests/stx_cyberestate.test.ts:53-74 | a non-owner sender gets OwnerOnly from mint, add-admin, remove-admin and withdraw, with the state unchanged |
| LedgerProperties.MintCreditsOwner | cyberestate/tests/stx_cyberestate.test.ts:58 | an owner's mint succeeds for any amount, adds it to the owner's balance (absent = 0), and changes no other balance or map |
| LedgerProperties.MintSupply | cyberestate/tests/stx_cyberestate.test.ts:53-60 | the supply grows by the amount when the owner mints and stays put otherwise |
| LedgerProperties.ZeroDefaults | cyberestate/tests/stx_cyberestate.test.ts:157-163 | on a fresh ledger every balance and every player's stats read 0 |
| LedgerProperties.AdminFlags | cyberestate/tests/stx_cyberestate.test.ts:62-78 | after adding, the account is an admin; after removing, it reads exactly like a never-added account; no other flag or map changes |
| LedgerProperties.RemovedAdminLosesAccess | cyberestate/tests/stx_cyberestate.test.ts:76-83 | an admin added then removed (not the owner) fails the admin-or-owner gate again and is refused with Unauthorized when it adds an achievement |
| LedgerProperties.AddAchievementSpec | cyberestate/tests/stx_cyberestate.test.ts:80-97 | Unauthorized is checked before existence; an existing id gives AchievementExists and the record is kept; otherwise the record is stored active and only that entry changes |
| LedgerProperties.UpdateAchievementSpec | cyberestate/tests/stx_cyberestate.test.ts:99-116 | Unauthorized, then NotFound for an absent id; otherwise all four fields, `active` included, are replaced and only that entry changes |
| LedgerProperties.AwardErrorOrder | cyberestate/tests/stx_cyberestate.test.ts:118-131 | exact conditions, in order, for Unauthorized, NotFound (absent or inactive), AlreadyClaimed and success; every failure leaves the state unchanged |
| LedgerProperties.AwardPays | cyberestate/tests/stx_cyberestate.test.ts:133-137 | a successful award marks exactly that pair claimed (every other claim record unchanged) and pays the reward from the owner to the player (net zero when the player is the owner); registry, admins and other balances unchanged |
| LedgerProperties.AwardConserves | cyberestate/tests/stx_cyberestate.test.ts:118-140 | an award, failed or not, leaves the supply unchanged |
| LedgerProperties.AwardTwice | cyberestate/tests/stx_cyberestate.test.ts:128-133 | after a successful award, awarding the same pair again fails with AlreadyClaimed and changes nothing |
| LedgerProperties.AwardMayOverdrawOwner | cyberestate/tests/stx_cyberestate.test.ts:136 | with no funds check, an owner with no tokens still pays a reward and goes to -100 |
| LedgerProperties.WithdrawSpec | cyberestate/tests/stx_cyberestate.test.ts:142-155 | after the owner gate, a non-positive amount gives InvalidAmount; otherwise the amount moves from owner to recipient; the supply never changes |
| LedgerProperties.WithdrawMayOverdraw | cyberestate/tests/stx_cyberestate.test.ts:151 | with no funds check, an owner with no tokens can withdraw 50 and goes to -50 |
| LedgerProperties.TransferSpec | cyberestate/tests/stx_cyberestate.test.ts:165-178 | InvalidAmount for amount <= 0, then code 1 when the sender holds less; otherwise sender and recipient lose and gain the amount, a self-transfer changes nothing |
| LedgerProperties.TransferConserves | cyberestate/tests/stx_cyberestate.test.ts:174-175 | a peer transfer leaves the supply unchanged |
| LedgerProperties.TransferKeepsNonNegative | cyberestate/tests/stx_cyberestate.test.ts:170-175 | a successful peer transfer leaves the sender non-negative and keeps all balances non-negative if they were |
| LedgerProperties.AdminTransferSpec | cyberestate/tests/stx_cyberestate.test.ts:180-193 | Unauthorized for a non-admin non-owner, then InvalidAmount; otherwise the amount moves with no funds check; the supply never changes |
| LedgerProperties.AdminTransferMayOverdraw | cyberestate/tests/stx_cyberestate.test.ts:189 | an admin transfer from a player with no tokens succeeds and leaves it at -50 |
| LedgerProperties.Player1AwardsAsPlayer | cyberestate/tests/stx_cyberestate.test.ts:196-198 | the first wrapper is the award with the player as sender, so a plain player gets Unauthorized and nothing changes |
| LedgerProperties.Player2IsAward | cyberestate/tests/stx_cyberestate.test.ts:200-205 | the second wrapper behaves exactly as the award for every input |
| LedgerProperties.AwardWalkthrough | cyberestate/tests/stx_cyberestate.test.ts:344-376 | after adding an admin, minting 10000 and adding achievements 1 (100) and 2 (500), the owner's award of achievement 1 leaves the player at 100, the owner at 9900 and the pair claimed; the second award gives AlreadyClaimed |
| LedgerTraces.ApplyPreserves | cyberestate/tests/stx_cyberestate.test.ts:52-205 | any single call: a failure changes nothing, the owner stays, no claim is reset, no achievement id disappears |
| LedgerTraces.ApplySupply | cyberestate/tests/stx_cyberestate.test.ts:52-205 | any single call changes the supply by what it mints, and only an owner's mint mints |
| LedgerTraces.RunKeepsOwner | cyberestate/tests/stx_cyberestate.test.ts:5-13 | over any sequence of calls the owner is the one fixed at the start |
| LedgerTraces.RunKeepsClaimsAndAchievements | cyberestate/tests/stx_cyberestate.test.ts:128-133 | over any sequence of calls a claimed pair stays claimed and a registered id stays registered |
| LedgerTraces.RunSupply | cyberestate/tests/stx_cyberestate.test.ts:52-205 | over any sequence of calls the supply changes by exactly the sum of the owner's mints |
| LedgerTraces.SupplyFromDeployment | cyberestate/tests/stx_cyberestate.test.ts:5-13 | from deployment, the supply equals everything the owner has minted |

## Left out

- Numbers: amounts, balances and ids are mathematical integers. JavaScript
  doubles, `NaN`, fractional amounts and the coercions of `|| 0` and `!!` are
  not modelled.
- Claim keys: the contract keys a claim by the string `player-id`. The model
  uses the pair (player, id). Collisions between such strings when a
  principal contains `-` are not modelled.
- Inherited object properties: the contract's maps are plain JavaScript
  objects, so an account named after an inherited property (`constructor`,
  `toString`, `__proto__`) reads as present; `checkIsAdmin("constructor")`
  returns true and that account passes the admin-or-owner gate. The model's
  maps hold only the entries the operations write.
- Object identity: a getter returns the achievement record as a value. The
  contract returns the stored object itself, which a caller could mutate.
- Test scaffolding: the test framework, `beforeEach` and `resetState` are not
  modelled. The state `resetState` builds is the class constructor's
  initial state.
- Deployment: signing, transaction submission and the on-chain runtime are
  not modelled. Each call receives an already-authenticated sender as a
  parameter.
