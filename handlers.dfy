/** What each request handler of the app does to the store, stated on a value
    snapshot of the whole store (`Db`). Each handler is atomic: it either
    commits all of its changes or none. The class `App.Store` implements
    these handlers step by step and is proved to agree with them. */
module Handlers {
  import opened Models
  import opened PubgApi

  /** Sponsor credit per interaction, in cents. */
  const SponsorCredit: int := 50

  /** The whole store: users and tournaments by key, the other tables as
      append-only sequences whose index is the row's key. */
  datatype Db = Db(
    users: map<nat, User>,
    tournaments: map<nat, Tournament>,
    registrations: seq<Registration>,
    matches: seq<TournamentMatch>,
    results: seq<MatchResult>,
    donations: seq<Donation>,
    payouts: seq<Payout>,
    sponsors: seq<Sponsor>)

  // ---------------------------------------------------------------- donations

  datatype DonateOutcome = DonateNotFound | DonationIgnored | Donated

  function Donate(db: Db, tid: nat, amount: int, donorName: Option<string>): (r: (DonateOutcome, Db))
    ensures r.0 == DonateNotFound <==> tid !in db.tournaments
    ensures r.0 == Donated <==> tid in db.tournaments && amount > 0
    ensures r.0 != Donated ==> r.1 == db
    ensures r.0 == Donated ==>
      r.1.donations == db.donations + [NewDonation(tid, amount, donorName)] &&
      r.1.tournaments.Keys == db.tournaments.Keys &&
      r.1.tournaments[tid] == db.tournaments[tid].(donationTotal := db.tournaments[tid].donationTotal + amount) &&
      TotalPrizePool(r.1.tournaments[tid]) == TotalPrizePool(db.tournaments[tid]) + amount &&
      (forall k :: k in db.tournaments && k != tid ==> r.1.tournaments[k] == db.tournaments[k]) &&
      r.1 == db.(tournaments := r.1.tournaments, donations := r.1.donations)
  {
    if tid !in db.tournaments then (DonateNotFound, db)
    else if amount <= 0 then (DonationIgnored, db)
    else
      var t := db.tournaments[tid];
      (Donated, db.(tournaments := db.tournaments[tid := t.(donationTotal := t.donationTotal + amount)],
                   donations := db.donations + [NewDonation(tid, amount, donorName)]))
  }

  /** Sum of the amounts of the donation rows of tournament `tid`. */
  function DonatedTo(donations: seq<Donation>, tid: nat): int
    decreases |donations|
  {
    if donations == [] then 0
    else
      var last := donations[|donations| - 1];
      DonatedTo(donations[..|donations| - 1], tid) + (if last.tournamentId == tid then last.amount else 0)
  }

  /** Every tournament's donation total is the sum of its donation rows. */
  ghost predicate DonationLedger(db: Db) {
    forall t :: t in db.tournaments ==> db.tournaments[t].donationTotal == DonatedTo(db.donations, t)
  }

  /** A donation raises the total by the amount of the row it appends, so the
      totals keep agreeing with the donation rows. */
  lemma DonateKeepsLedger(db: Db, tid: nat, amount: int, donorName: Option<string>)
    requires DonationLedger(db)
    ensures DonationLedger(Donate(db, tid, amount, donorName).1)
  {
    var r := Donate(db, tid, amount, donorName);
    if r.0 == Donated {
      var ds := r.1.donations;
      assert ds[..|ds| - 1] == db.donations;
      forall t | t in r.1.tournaments
        ensures r.1.tournaments[t].donationTotal == DonatedTo(ds, t)
      {
        assert t in db.tournaments;
      }
    }
  }

  /** No handler other than a donation touches a donation total or a
      donation row. */
  lemma OtherHandlersKeepLedger(db: Db, tid: nat, userId: nat, currentUserId: nat, providerAccepts: bool,
                                matchId: Option<string>, api: StatsProvider)
    requires DonationLedger(db)
    ensures DonationLedger(EarnSponsorCredit(db, tid).1)
    ensures DonationLedger(RequestPayout(db, userId, currentUserId, providerAccepts).1)
    ensures DonationLedger(InitSponsors(db).1)
    ensures DonationLedger(Sync(db, tid, matchId, api).1)
  {
  }

  // ----------------------------------------------------------- sponsor credit

  datatype CreditOutcome = CreditNotFound | CreditEarned

  function EarnSponsorCredit(db: Db, tid: nat): (r: (CreditOutcome, Db))
    ensures r.0 == CreditEarned <==> tid in db.tournaments
    ensures r.0 == CreditNotFound ==> r.1 == db
    ensures r.0 == CreditEarned ==>
      r.1.tournaments.Keys == db.tournaments.Keys &&
      r.1.tournaments[tid] == db.tournaments[tid].(sponsorCreditTotal := db.tournaments[tid].sponsorCreditTotal + 50) &&
      TotalPrizePool(r.1.tournaments[tid]) == TotalPrizePool(db.tournaments[tid]) + 50 &&
      (forall k :: k in db.tournaments && k != tid ==> r.1.tournaments[k] == db.tournaments[k]) &&
      r.1 == db.(tournaments := r.1.tournaments)
  {
    if tid !in db.tournaments then (CreditNotFound, db)
    else
      var t := db.tournaments[tid];
      (CreditEarned, db.(tournaments := db.tournaments[tid := t.(sponsorCreditTotal := t.sponsorCreditTotal + SponsorCredit)]))
  }

  // ------------------------------------------------------------------ payouts

  datatype PayoutOutcome = PayoutUserNotFound | Unauthorized | InsufficientBalance | ProviderRejected | PayoutSucceeded

  /** `currentUserId` is the authenticated caller; `providerAccepts` is the
      payment provider's answer to the payout request. */
  function RequestPayout(db: Db, userId: nat, currentUserId: nat, providerAccepts: bool): (r: (PayoutOutcome, Db))
    ensures r.0 == PayoutUserNotFound <==> userId !in db.users
    ensures r.0 == Unauthorized <==> userId in db.users && userId != currentUserId
    ensures r.0 == InsufficientBalance <==> userId in db.users && userId == currentUserId && db.users[userId].balance <= 0
    ensures r.0 == PayoutSucceeded <==>
      userId in db.users && userId == currentUserId && db.users[userId].balance > 0 && providerAccepts
    ensures r.0 != PayoutSucceeded ==> r.1 == db
    ensures r.0 == PayoutSucceeded ==>
      r.1.payouts == db.payouts + [Payout(userId, db.users[userId].balance, PayoutStatus.Completed, None)] &&
      r.1.users == db.users[userId := db.users[userId].(balance := 0)] &&
      r.1 == db.(users := r.1.users, payouts := r.1.payouts)
  {
    if userId !in db.users then (PayoutUserNotFound, db)
    else if userId != currentUserId then (Unauthorized, db)
    else
      var u := db.users[userId];
      if u.balance <= 0 then (InsufficientBalance, db)
      else if !providerAccepts then (ProviderRejected, db)
      else
        (PayoutSucceeded, db.(users := db.users[userId := u.(balance := 0)],
                              payouts := db.payouts + [Payout(userId, u.balance, PayoutStatus.Completed, None)]))
  }

  /** A successful payout moves the whole balance into the payout row. */
  lemma PayoutConservesMoney(db: Db, userId: nat, currentUserId: nat, providerAccepts: bool)
    ensures var r := RequestPayout(db, userId, currentUserId, providerAccepts);
      r.0 == PayoutSucceeded ==>
        r.1.payouts[|db.payouts|].amount + r.1.users[userId].balance == db.users[userId].balance &&
        r.1.payouts[|db.payouts|].amount > 0
  {
  }

  // ----------------------------------------------------------------- sponsors

  datatype SeedOutcome = SponsorsSeeded | SponsorsPresent

  function SeedSponsors(): (s: seq<Sponsor>)
    ensures |s| == 3
  {
    [Sponsor("Razer", None, Some("https://www.razer.com"), None),
     Sponsor("Logitech G", None, Some("https://www.logitechg.com"), None),
     Sponsor("Red Bull", None, Some("https://www.redbull.com"), None)]
  }

  function InitSponsors(db: Db): (r: (SeedOutcome, Db))
    ensures r.0 == SponsorsSeeded <==> |db.sponsors| == 0
    ensures r.0 == SponsorsPresent ==> r.1 == db
    ensures r.0 == SponsorsSeeded ==> |r.1.sponsors| == 3 && r.1 == db.(sponsors := SeedSponsors())
  {
    if |db.sponsors| == 0 then (SponsorsSeeded, db.(sponsors := SeedSponsors())) else (SponsorsPresent, db)
  }

  /** Seeding twice is the same as seeding once. */
  lemma InitSponsorsIdempotent(db: Db)
    ensures InitSponsors(InitSponsors(db).1) == (SponsorsPresent, InitSponsors(db).1)
  {
  }

  // --------------------------------------------------------------- settlement

  datatype SyncOutcome = SyncNotFound | MatchIdRequired | MatchFetchFailed | SyncCrashed | Synced

  /** What settlement does for one registration. `Abort` is a lookup that
      raises (a registration without a user, or an empty `data` list) and so
      fails the request before anything is committed. */
  datatype Step = Skip | Credit(stats: PlayerStats) | Abort

  /** What every participant's processing depends on besides the user itself. */
  datatype SyncInputs = SyncInputs(platform: string, doc: MatchDocument, api: StatsProvider)

  /** The registrant's handle on the tournament's platform. */
  function Handle(u: User, platform: string): (h: Option<string>)
    ensures Shard(platform) == "xbox" ==> h == u.xboxGamertag
    ensures Shard(platform) == "psn" ==> h == u.psnId
  {
    if IsXbox(platform) then u.xboxGamertag else u.psnId
  }

  /** The loop body for one registration. */
  function StepOf(reg: Registration, users: map<nat, User>, inp: SyncInputs): Step {
    if reg.userId !in users then Abort
    else
      var h := Handle(users[reg.userId], inp.platform);
      if h.None? || h.value == "" then Skip
      else
        var pd := GetPlayerStats(inp.api, inp.platform, h.value);
        if pd.None? || pd.value.data.None? then Skip
        else if |pd.value.data.value| == 0 then Abort
        else
          match ExtractPlayerStats(inp.doc, pd.value.data.value[0])
          case None => Skip
          case Some(s) => Credit(s)
  }

  /** A user has a handle on the platform when it is present and not empty. */
  predicate HasHandle(u: User, platform: string) {
    var h := Handle(u, platform);
    h.Some? && h.value != ""
  }

  /** The loop body aborts exactly on the two lookups that raise, and a
      credit carries the stats extracted for a registrant that has a handle. */
  lemma StepCases(reg: Registration, users: map<nat, User>, inp: SyncInputs)
    ensures var st := StepOf(reg, users, inp);
      (st.Abort? <==> (reg.userId !in users ||
        (var h := Handle(users[reg.userId], inp.platform);
         h.Some? && h.value != "" && GetPlayerStats(inp.api, inp.platform, h.value) == Some(PlayerDocument(Some([])))))) &&
      (st.Credit? ==> (reg.userId in users && HasHandle(users[reg.userId], inp.platform) &&
        (st.stats.win <==> st.stats.placement == 1)))
  {
  }

  /** One extraction applied to a user's running totals. */
  function Award(u: User, s: PlayerStats, pool: int): User {
    var u1 := u.(totalKills := u.totalKills + s.kills);
    if s.win then u1.(totalWins := u1.totalWins + 1, balance := u1.balance + pool) else u1
  }

  function ResultRow(matchRef: nat, userId: nat, s: PlayerStats): MatchResult {
    MatchResult(matchRef, userId, s.kills, s.placement, s.win)
  }

  /** The participant loop: walks the registrations in order, threading the
      users and the result rows; `None` when some step aborts. */
  function SettleFrom(regs: seq<Registration>, users: map<nat, User>, results: seq<MatchResult>,
                      inp: SyncInputs, matchRef: nat, pool: int): Option<(map<nat, User>, seq<MatchResult>)>
    decreases |regs|
  {
    if regs == [] then Some((users, results))
    else
      var reg := regs[0];
      match StepOf(reg, users, inp)
      case Abort => None
      case Skip => SettleFrom(regs[1..], users, results, inp, matchRef, pool)
      case Credit(s) =>
        SettleFrom(regs[1..], users[reg.userId := Award(users[reg.userId], s, pool)],
                   results + [ResultRow(matchRef, reg.userId, s)], inp, matchRef, pool)
  }

  /** One turn of the participant loop. */
  lemma SettleStep(reg: Registration, rest: seq<Registration>, users: map<nat, User>, results: seq<MatchResult>,
                   inp: SyncInputs, matchRef: nat, pool: int)
    ensures var st := StepOf(reg, users, inp);
      var r := SettleFrom([reg] + rest, users, results, inp, matchRef, pool);
      (st.Abort? ==> r.None?) &&
      (st.Skip? ==> r == SettleFrom(rest, users, results, inp, matchRef, pool)) &&
      (st.Credit? ==> r == SettleFrom(rest, users[reg.userId := Award(users[reg.userId], st.stats, pool)],
                                      results + [ResultRow(matchRef, reg.userId, st.stats)], inp, matchRef, pool))
  {
    assert ([reg] + rest)[0] == reg && ([reg] + rest)[1..] == rest;
  }

  // Reference view of the loop: what each registration contributes, judged
  // against the users as they were before the loop.

  ghost predicate AnyAbort(regs: seq<Registration>, users: map<nat, User>, inp: SyncInputs) {
    exists i :: 0 <= i < |regs| && StepOf(regs[i], users, inp).Abort?
  }

  /** Number of registrations of `uid` whose extraction reports a win. */
  function Wins(uid: nat, regs: seq<Registration>, users: map<nat, User>, inp: SyncInputs): nat
    decreases |regs|
  {
    if regs == [] then 0
    else
      var st := StepOf(regs[0], users, inp);
      (if regs[0].userId == uid && st.Credit? && st.stats.win then 1 else 0) + Wins(uid, regs[1..], users, inp)
  }

  /** Sum of the kills extracted for the registrations of `uid`. */
  function Kills(uid: nat, regs: seq<Registration>, users: map<nat, User>, inp: SyncInputs): int
    decreases |regs|
  {
    if regs == [] then 0
    else
      var st := StepOf(regs[0], users, inp);
      (if regs[0].userId == uid && st.Credit? then st.stats.kills else 0) + Kills(uid, regs[1..], users, inp)
  }

  /** One result row per successful extraction, in registration order. */
  function Rows(regs: seq<Registration>, users: map<nat, User>, inp: SyncInputs, matchRef: nat): (rows: seq<MatchResult>)
    ensures |rows| <= |regs|
    ensures forall row :: row in rows ==> row.matchRef == matchRef && (row.win <==> row.placement == 1)
    ensures forall row :: row in rows ==> exists i :: 0 <= i < |regs| && regs[i].userId == row.userId
    decreases |regs|
  {
    if regs == [] then []
    else
      var st := StepOf(regs[0], users, inp);
      var rest := Rows(regs[1..], users, inp, matchRef);
      assert forall i :: 1 <= i < |regs| ==> regs[i] == regs[1..][i - 1];
      if st.Credit? then [ResultRow(matchRef, regs[0].userId, st.stats)] + rest else rest
  }

  /** A user after `wins` wins and `kills` kills at a prize pool of `pool`. */
  function Credited(u: User, wins: nat, kills: int, pool: int): User {
    u.(balance := u.balance + Prize(wins, pool), totalKills := u.totalKills + kills, totalWins := u.totalWins + wins)
  }

  /** The prize for `wins` wins: the pool, paid once per win. */
  function Prize(wins: nat, pool: int): int {
    if wins == 0 then 0 else Prize(wins - 1, pool) + pool
  }

  lemma {:induction false} PrizeIsProduct(wins: nat, pool: int)
    ensures Prize(wins, pool) == wins * pool
  {
    if wins > 0 {
      PrizeIsProduct(wins - 1, pool);
    }
  }

  lemma {:induction false} PrizeNotNegative(wins: nat, pool: int)
    requires pool >= 0
    ensures Prize(wins, pool) >= 0
  {
    if wins > 0 {
      PrizeNotNegative(wins - 1, pool);
    }
  }

  /** Two user tables with the same keys and the same platform handles. */
  ghost predicate SameProfiles(a: map<nat, User>, b: map<nat, User>) {
    a.Keys == b.Keys &&
    forall k :: k in a ==> a[k].xboxGamertag == b[k].xboxGamertag && a[k].psnId == b[k].psnId
  }

  lemma AwardKeepsProfiles(users: map<nat, User>, k: nat, s: PlayerStats, pool: int)
    requires k in users
    ensures SameProfiles(users, users[k := Award(users[k], s, pool)])
  {
  }

  lemma StepProfiles(reg: Registration, a: map<nat, User>, b: map<nat, User>, inp: SyncInputs)
    requires SameProfiles(a, b)
    ensures StepOf(reg, a, inp) == StepOf(reg, b, inp)
  {
    if reg.userId in a {
      assert Handle(a[reg.userId], inp.platform) == Handle(b[reg.userId], inp.platform);
    }
  }

  lemma AnyAbortCons(regs: seq<Registration>, users: map<nat, User>, inp: SyncInputs)
    requires regs != []
    ensures AnyAbort(regs, users, inp) <==> StepOf(regs[0], users, inp).Abort? || AnyAbort(regs[1..], users, inp)
  {
    if AnyAbort(regs[1..], users, inp) {
      var i :| 0 <= i < |regs[1..]| && StepOf(regs[1..][i], users, inp).Abort?;
      assert regs[i + 1] == regs[1..][i];
    }
    if AnyAbort(regs, users, inp) {
      var i :| 0 <= i < |regs| && StepOf(regs[i], users, inp).Abort?;
      if i > 0 {
        assert regs[1..][i - 1] == regs[i];
      }
    }
  }

  lemma AnyAbortProfiles(regs: seq<Registration>, a: map<nat, User>, b: map<nat, User>, inp: SyncInputs)
    requires SameProfiles(a, b)
    ensures AnyAbort(regs, a, inp) <==> AnyAbort(regs, b, inp)
  {
    forall i | 0 <= i < |regs|
      ensures StepOf(regs[i], a, inp) == StepOf(regs[i], b, inp)
    {
      StepProfiles(regs[i], a, b, inp);
    }
  }

  /** The reference view depends on the users only through their handles. */
  lemma {:induction false} ProfilesInvariance(uid: nat, regs: seq<Registration>, a: map<nat, User>, b: map<nat, User>,
                                              inp: SyncInputs, matchRef: nat)
    requires SameProfiles(a, b)
    ensures Wins(uid, regs, a, inp) == Wins(uid, regs, b, inp)
    ensures Kills(uid, regs, a, inp) == Kills(uid, regs, b, inp)
    ensures Rows(regs, a, inp, matchRef) == Rows(regs, b, inp, matchRef)
    decreases |regs|
  {
    if regs != [] {
      StepProfiles(regs[0], a, b, inp);
      ProfilesInvariance(uid, regs[1..], a, b, inp, matchRef);
    }
  }

  lemma AwardIsCredited(u: User, s: PlayerStats, pool: int, wins: nat, kills: int)
    ensures Credited(Award(u, s, pool), wins, kills, pool) ==
            Credited(u, wins + (if s.win then 1 else 0), kills + s.kills, pool)
  {
    if s.win {
      assert Prize(wins + 1, pool) == Prize(wins, pool) + pool;
    }
  }

  /** The participant loop fails exactly when some registration aborts. */
  lemma {:induction false} SettleAborts(regs: seq<Registration>, users: map<nat, User>, results: seq<MatchResult>,
                                        inp: SyncInputs, matchRef: nat, pool: int)
    ensures SettleFrom(regs, users, results, inp, matchRef, pool).None? <==> AnyAbort(regs, users, inp)
    decreases |regs|
  {
    if regs != [] {
      AnyAbortCons(regs, users, inp);
      var reg := regs[0];
      match StepOf(reg, users, inp)
      case Abort =>
      case Skip =>
        SettleAborts(regs[1..], users, results, inp, matchRef, pool);
      case Credit(s) =>
        var users1 := users[reg.userId := Award(users[reg.userId], s, pool)];
        AwardKeepsProfiles(users, reg.userId, s, pool);
        AnyAbortProfiles(regs[1..], users, users1, inp);
        SettleAborts(regs[1..], users1, results + [ResultRow(matchRef, reg.userId, s)], inp, matchRef, pool);
    }
  }

  /** A credited first registration adds its own win and kills to the
      reference view of its user, and nothing to any other user's. */
  lemma CreditedHead(uid: nat, regs: seq<Registration>, users: map<nat, User>, inp: SyncInputs, s: PlayerStats)
    requires regs != [] && StepOf(regs[0], users, inp) == Credit(s)
    ensures Wins(uid, regs, users, inp) == (if regs[0].userId == uid && s.win then 1 else 0) + Wins(uid, regs[1..], users, inp)
    ensures Kills(uid, regs, users, inp) == (if regs[0].userId == uid then s.kills else 0) + Kills(uid, regs[1..], users, inp)
  {
  }

  /** One credited registration of user `k`, seen from user `uid`: crediting
      it first and then `wins` and `kills` more is the same as crediting
      everything at once. */
  lemma CreditStep(users: map<nat, User>, k: nat, uid: nat, s: PlayerStats, pool: int, wins: nat, kills: int)
    requires k in users && uid in users
    ensures Credited(users[k := Award(users[k], s, pool)][uid], wins, kills, pool) ==
            Credited(users[uid], (if k == uid && s.win then 1 else 0) + wins, (if k == uid then s.kills else 0) + kills, pool)
  {
    if uid == k {
      AwardIsCredited(users[uid], s, pool, wins, kills);
    }
  }

  /** A user as credited after a credited first registration of user `k` and
      then by `wins` and `kills` more is the user as credited by all of them. */
  lemma CreditedAfterHead(users: map<nat, User>, k: nat, uid: nat, s: PlayerStats, pool: int,
                          wins: nat, kills: int, allWins: nat, allKills: int, after: User)
    requires k in users && uid in users
    requires allWins == (if k == uid && s.win then 1 else 0) + wins
    requires allKills == (if k == uid then s.kills else 0) + kills
    requires after == Credited(users[k := Award(users[k], s, pool)][uid], wins, kills, pool)
    ensures after == Credited(users[uid], allWins, allKills, pool)
  {
    CreditStep(users, k, uid, s, pool, wins, kills);
  }

  /** The participant loop keeps every user's key and handles. */
  lemma {:induction false} SettleKeepsProfiles(regs: seq<Registration>, users: map<nat, User>, results: seq<MatchResult>,
                                               inp: SyncInputs, matchRef: nat, pool: int)
    requires SettleFrom(regs, users, results, inp, matchRef, pool).Some?
    ensures SameProfiles(users, SettleFrom(regs, users, results, inp, matchRef, pool).value.0)
    decreases |regs|
  {
    if regs != [] {
      var reg := regs[0];
      match StepOf(reg, users, inp)
      case Skip =>
        SettleKeepsProfiles(regs[1..], users, results, inp, matchRef, pool);
      case Credit(s) =>
        var k := reg.userId;
        AwardKeepsProfiles(users, k, s, pool);
        SettleKeepsProfiles(regs[1..], users[k := Award(users[k], s, pool)],
                            results + [ResultRow(matchRef, k, s)], inp, matchRef, pool);
    }
  }

  /** When the participant loop succeeds it has appended exactly one row per
      successful extraction, in registration order. */
  lemma {:induction false} SettleRows(regs: seq<Registration>, users: map<nat, User>, results: seq<MatchResult>,
                                      inp: SyncInputs, matchRef: nat, pool: int)
    requires SettleFrom(regs, users, results, inp, matchRef, pool).Some?
    ensures SettleFrom(regs, users, results, inp, matchRef, pool).value.1 == results + Rows(regs, users, inp, matchRef)
    decreases |regs|
  {
    if regs != [] {
      var reg := regs[0];
      match StepOf(reg, users, inp)
      case Skip =>
        SettleRows(regs[1..], users, results, inp, matchRef, pool);
      case Credit(s) =>
        var k := reg.userId;
        var users1 := users[k := Award(users[k], s, pool)];
        AwardKeepsProfiles(users, k, s, pool);
        ProfilesInvariance(k, regs[1..], users1, users, inp, matchRef);
        SettleRows(regs[1..], users1, results + [ResultRow(matchRef, k, s)], inp, matchRef, pool);
    }
  }

  /** When the participant loop succeeds it has credited every user with
      exactly its own wins times the unchanged pool, and its own kills. */
  lemma {:induction false} SettleCredits(regs: seq<Registration>, users: map<nat, User>, results: seq<MatchResult>,
                                         inp: SyncInputs, matchRef: nat, pool: int)
    requires SettleFrom(regs, users, results, inp, matchRef, pool).Some?
    ensures forall uid :: uid in users ==>
      uid in SettleFrom(regs, users, results, inp, matchRef, pool).value.0 &&
      SettleFrom(regs, users, results, inp, matchRef, pool).value.0[uid] ==
      Credited(users[uid], Wins(uid, regs, users, inp), Kills(uid, regs, users, inp), pool)
    decreases |regs|
  {
    var r := SettleFrom(regs, users, results, inp, matchRef, pool).value;
    SettleKeepsProfiles(regs, users, results, inp, matchRef, pool);
    if regs == [] {
      forall uid | uid in users
        ensures users[uid] == Credited(users[uid], 0, 0, pool)
      {
      }
    } else {
      var reg, rest := regs[0], regs[1..];
      match StepOf(reg, users, inp)
      case Skip =>
        SettleCredits(rest, users, results, inp, matchRef, pool);
      case Credit(s) =>
        var k := reg.userId;
        var users1 := users[k := Award(users[k], s, pool)];
        var results1 := results + [ResultRow(matchRef, k, s)];
        AwardKeepsProfiles(users, k, s, pool);
        SettleCredits(rest, users1, results1, inp, matchRef, pool);
        assert r == SettleFrom(rest, users1, results1, inp, matchRef, pool).value;
        forall uid | uid in users
          ensures r.0[uid] == Credited(users[uid], Wins(uid, regs, users, inp), Kills(uid, regs, users, inp), pool)
        {
          ProfilesInvariance(uid, rest, users1, users, inp, matchRef);
          CreditedHead(uid, regs, users, inp, s);
          CreditedAfterHead(users, k, uid, s, pool, Wins(uid, rest, users, inp), Kills(uid, rest, users, inp),
                            Wins(uid, regs, users, inp), Kills(uid, regs, users, inp), r.0[uid]);
        }
    }
  }

  lemma MissingHandleSkips(reg: Registration, users: map<nat, User>, inp: SyncInputs)
    requires reg.userId in users
    requires var h := Handle(users[reg.userId], inp.platform); h.None? || h.value == ""
    ensures StepOf(reg, users, inp) == Skip
  {
  }

  /** No registration of `uid` among `regs` yields an extraction. */
  ghost predicate NeverCredited(uid: nat, regs: seq<Registration>, users: map<nat, User>, inp: SyncInputs) {
    forall i :: 0 <= i < |regs| && regs[i].userId == uid ==> !StepOf(regs[i], users, inp).Credit?
  }

  /** A user with no successful extraction among `regs` keeps all its totals
      and receives no result row. */
  lemma {:induction false} NoCreditNoEffect(uid: nat, regs: seq<Registration>, users: map<nat, User>,
                                            inp: SyncInputs, matchRef: nat)
    requires NeverCredited(uid, regs, users, inp)
    ensures Wins(uid, regs, users, inp) == 0 && Kills(uid, regs, users, inp) == 0
    ensures forall row :: row in Rows(regs, users, inp, matchRef) ==> row.userId != uid
    decreases |regs|
  {
    if regs != [] {
      assert forall i :: 1 <= i < |regs| ==> regs[i] == regs[1..][i - 1];
      NoCreditNoEffect(uid, regs[1..], users, inp, matchRef);
    }
  }

  /** The registrations of tournament `tid`, in table order. */
  function TournamentRegistrations(regs: seq<Registration>, tid: nat): (r: seq<Registration>)
    ensures forall x :: x in r <==> x in regs && x.tournamentId == tid
    ensures forall x :: multiset(r)[x] == if x.tournamentId == tid then multiset(regs)[x] else 0
    ensures |r| <= |regs|
  {
    if regs == [] then []
    else
      var rest := TournamentRegistrations(regs[1..], tid);
      assert regs == [regs[0]] + regs[1..];
      if regs[0].tournamentId == tid then [regs[0]] + rest else rest
  }

  /** The match document the handler goes on with, if the fetch succeeded and
      the document is not empty. */
  function FetchedMatch(db: Db, tid: nat, matchId: string, api: StatsProvider): (r: Option<MatchDocument>)
    requires tid in db.tournaments
    ensures var d := GetMatchDetails(api, db.tournaments[tid].platform, matchId);
      (r.None? <==> d.None? || !Truthy(d.value)) && (r.Some? ==> r == d)
  {
    var d := GetMatchDetails(api, db.tournaments[tid].platform, matchId);
    if d.Some? && Truthy(d.value) then d else None
  }

  /** The settlement handler (sync of one match of a tournament). */
  function Sync(db: Db, tid: nat, matchId: Option<string>, api: StatsProvider): (r: (SyncOutcome, Db))
    ensures r.0 == SyncNotFound <==> tid !in db.tournaments
    ensures r.0 == MatchIdRequired <==> tid in db.tournaments && (matchId.None? || matchId.value == "")
    ensures r.0 == MatchFetchFailed <==>
      tid in db.tournaments && matchId.Some? && matchId.value != "" && FetchedMatch(db, tid, matchId.value, api).None?
    ensures r.0 != Synced ==> r.1 == db
    ensures r.0 == Synced ==>
      r.1.matches == db.matches + [TournamentMatch(tid, matchId)] &&
      r.1 == db.(matches := r.1.matches, users := r.1.users, results := r.1.results)
  {
    if tid !in db.tournaments then (SyncNotFound, db)
    else if matchId.None? || matchId.value == "" then (MatchIdRequired, db)
    else
      var t := db.tournaments[tid];
      var doc := FetchedMatch(db, tid, matchId.value, api);
      if doc.None? then (MatchFetchFailed, db)
      else
        var inp := SyncInputs(t.platform, doc.value, api);
        var regs := TournamentRegistrations(db.registrations, tid);
        var settled := SettleFrom(regs, db.users, db.results, inp, |db.matches|, TotalPrizePool(t));
        if settled.None? then (SyncCrashed, db)
        else
          (Synced, db.(matches := db.matches + [TournamentMatch(tid, matchId)],
                       users := settled.value.0, results := settled.value.1))
  }

  /** The inputs every participant of a sync is processed with. */
  function InputsOf(db: Db, tid: nat, matchId: string, api: StatsProvider): SyncInputs
    requires tid in db.tournaments && FetchedMatch(db, tid, matchId, api).Some?
  {
    SyncInputs(db.tournaments[tid].platform, FetchedMatch(db, tid, matchId, api).value, api)
  }

  /** A sync that got a match document fails exactly when some registration
      aborts; when it succeeds, each user is credited with its own wins times
      the tournament's pool as read at settlement time, and one result row is
      appended per successful extraction. */
  lemma SyncEffect(db: Db, tid: nat, matchId: string, api: StatsProvider)
    requires tid in db.tournaments && matchId != "" && FetchedMatch(db, tid, matchId, api).Some?
    ensures var r := Sync(db, tid, Some(matchId), api);
      var inp := InputsOf(db, tid, matchId, api);
      var regs := TournamentRegistrations(db.registrations, tid);
      var pool := TotalPrizePool(db.tournaments[tid]);
      (r.0 == SyncCrashed <==> AnyAbort(regs, db.users, inp)) &&
      (r.0 == Synced <==> !AnyAbort(regs, db.users, inp)) &&
      (r.0 == Synced ==>
        SameProfiles(db.users, r.1.users) &&
        r.1.results == db.results + Rows(regs, db.users, inp, |db.matches|) &&
        forall uid :: uid in db.users ==>
          r.1.users[uid] == Credited(db.users[uid], Wins(uid, regs, db.users, inp), Kills(uid, regs, db.users, inp), pool))
  {
    var inp := InputsOf(db, tid, matchId, api);
    var regs := TournamentRegistrations(db.registrations, tid);
    var pool := TotalPrizePool(db.tournaments[tid]);
    SettleAborts(regs, db.users, db.results, inp, |db.matches|, pool);
    if !AnyAbort(regs, db.users, inp) {
      SettleKeepsProfiles(regs, db.users, db.results, inp, |db.matches|, pool);
      SettleRows(regs, db.users, db.results, inp, |db.matches|, pool);
      SettleCredits(regs, db.users, db.results, inp, |db.matches|, pool);
    }
  }

  /** Settlement never lowers a balance when the pool is not negative. */
  lemma SyncNeverDecreasesBalance(db: Db, tid: nat, matchId: Option<string>, api: StatsProvider, uid: nat)
    requires tid in db.tournaments && TotalPrizePool(db.tournaments[tid]) >= 0
    requires uid in db.users
    ensures var r := Sync(db, tid, matchId, api);
      uid in r.1.users && r.1.users[uid].balance >= db.users[uid].balance
  {
    var r := Sync(db, tid, matchId, api);
    if r.0 == Synced {
      SyncEffect(db, tid, matchId.value, api);
      var inp := InputsOf(db, tid, matchId.value, api);
      var regs := TournamentRegistrations(db.registrations, tid);
      var w := Wins(uid, regs, db.users, inp);
      var pool := TotalPrizePool(db.tournaments[tid]);
      PrizeNotNegative(w, pool);
    }
  }

  /** The guard above is needed: at a negative pool a win lowers the
      winner's balance. */
  lemma NegativePoolWinLowersBalance(u: User, s: PlayerStats, pool: int)
    requires s.win && pool < 0
    ensures Award(u, s, pool).balance < u.balance
  {
  }

  /** A registrant none of whose registrations yields an extraction (no
      handle, no `data` in the lookup, or no matching participant) gets no
      result row and keeps its balance, kills and wins. */
  lemma SyncUncreditedUserUnchanged(db: Db, tid: nat, matchId: string, api: StatsProvider, uid: nat)
    requires tid in db.tournaments && uid in db.users
    requires matchId != "" && FetchedMatch(db, tid, matchId, api).Some?
    requires NeverCredited(uid, TournamentRegistrations(db.registrations, tid), db.users, InputsOf(db, tid, matchId, api))
    ensures var r := Sync(db, tid, Some(matchId), api);
      uid in r.1.users && r.1.users[uid] == db.users[uid] &&
      |db.results| <= |r.1.results| &&
      forall row :: row in r.1.results[|db.results|..] ==> row.userId != uid
  {
    var r := Sync(db, tid, Some(matchId), api);
    if r.0 == Synced {
      SyncEffect(db, tid, matchId, api);
      var inp := InputsOf(db, tid, matchId, api);
      var regs := TournamentRegistrations(db.registrations, tid);
      NoCreditNoEffect(uid, regs, db.users, inp, |db.matches|);
      var pool := TotalPrizePool(db.tournaments[tid]);
      assert r.1.users[uid] == Credited(db.users[uid], 0, 0, pool);
      var rows := Rows(regs, db.users, inp, |db.matches|);
      var res := r.1.results;
      assert res == db.results + rows;
      assert res[|db.results|..] == rows;
    }
  }

  /** A registrant without a handle on the tournament's platform is skipped. */
  lemma SyncSkipsMissingHandle(db: Db, tid: nat, matchId: Option<string>, api: StatsProvider, uid: nat)
    requires tid in db.tournaments && uid in db.users
    requires var h := Handle(db.users[uid], db.tournaments[tid].platform); h.None? || h.value == ""
    ensures var r := Sync(db, tid, matchId, api);
      uid in r.1.users && r.1.users[uid] == db.users[uid] &&
      |db.results| <= |r.1.results| &&
      forall row :: row in r.1.results[|db.results|..] ==> row.userId != uid
  {
    var r := Sync(db, tid, matchId, api);
    if r.0 == Synced {
      var mid := matchId.value;
      var inp := InputsOf(db, tid, mid, api);
      var regs := TournamentRegistrations(db.registrations, tid);
      forall i | 0 <= i < |regs| && regs[i].userId == uid
        ensures !StepOf(regs[i], db.users, inp).Credit?
      {
        MissingHandleSkips(regs[i], db.users, inp);
      }
      SyncUncreditedUserUnchanged(db, tid, mid, api, uid);
    }
  }

  /** Every user's balance moves by the same full pool per win, so a user
      without a win keeps its balance, whatever the other registrants won. */
  lemma SyncNonWinnerKeepsBalance(db: Db, tid: nat, matchId: string, api: StatsProvider, uid: nat)
    requires tid in db.tournaments && uid in db.users
    requires matchId != "" && FetchedMatch(db, tid, matchId, api).Some?
    requires Wins(uid, TournamentRegistrations(db.registrations, tid), db.users, InputsOf(db, tid, matchId, api)) == 0
    ensures var r := Sync(db, tid, Some(matchId), api);
      uid in r.1.users && r.1.users[uid].balance == db.users[uid].balance &&
      r.1.users[uid].totalWins == db.users[uid].totalWins
  {
    SyncEffect(db, tid, matchId, api);
  }

  /** A successful sync leaves everything the next sync of the same match
      reads as it was: the tournament, its registrations and every handle. */
  lemma SyncedKeepsInputs(db: Db, tid: nat, matchId: string, api: StatsProvider)
    requires Sync(db, tid, Some(matchId), api).0 == Synced
    ensures tid in db.tournaments && matchId != "" && FetchedMatch(db, tid, matchId, api).Some?
    ensures var db1 := Sync(db, tid, Some(matchId), api).1;
      db1.tournaments == db.tournaments && db1.registrations == db.registrations &&
      FetchedMatch(db1, tid, matchId, api) == FetchedMatch(db, tid, matchId, api) &&
      SameProfiles(db.users, db1.users) &&
      !AnyAbort(TournamentRegistrations(db.registrations, tid), db.users, InputsOf(db, tid, matchId, api))
  {
    SyncEffect(db, tid, matchId, api);
  }

  /** One user after a successful sync: credited with its own wins and kills. */
  lemma SyncedUser(db: Db, tid: nat, matchId: string, api: StatsProvider, uid: nat)
    requires Sync(db, tid, Some(matchId), api).0 == Synced && uid in db.users
    ensures tid in db.tournaments && matchId != "" && FetchedMatch(db, tid, matchId, api).Some?
    ensures var r := Sync(db, tid, Some(matchId), api).1;
      var inp := InputsOf(db, tid, matchId, api);
      var regs := TournamentRegistrations(db.registrations, tid);
      uid in r.users &&
      r.users[uid] == Credited(db.users[uid], Wins(uid, regs, db.users, inp), Kills(uid, regs, db.users, inp),
                               TotalPrizePool(db.tournaments[tid]))
  {
    SyncEffect(db, tid, matchId, api);
  }

  /** Settlement is not idempotent: syncing the same match twice records a
      second match row and credits every winner a second time. */
  lemma ResyncCreditsTwice(db: Db, tid: nat, matchId: string, api: StatsProvider, uid: nat)
    requires tid in db.tournaments && uid in db.users
    requires Sync(db, tid, Some(matchId), api).0 == Synced
    ensures var db1 := Sync(db, tid, Some(matchId), api).1;
      var r2 := Sync(db1, tid, Some(matchId), api);
      var w := Wins(uid, TournamentRegistrations(db.registrations, tid), db.users, InputsOf(db, tid, matchId, api));
      var pool := TotalPrizePool(db.tournaments[tid]);
      r2.0 == Synced && uid in r2.1.users &&
      r2.1.matches == db.matches + [TournamentMatch(tid, Some(matchId)), TournamentMatch(tid, Some(matchId))] &&
      r2.1.users[uid].balance == db.users[uid].balance + w * pool + w * pool &&
      r2.1.users[uid].totalWins == db.users[uid].totalWins + w + w
  {
    var db1 := Sync(db, tid, Some(matchId), api).1;
    SyncedKeepsInputs(db, tid, matchId, api);
    var inp := InputsOf(db, tid, matchId, api);
    var regs := TournamentRegistrations(db.registrations, tid);
    assert InputsOf(db1, tid, matchId, api) == inp;
    AnyAbortProfiles(regs, db.users, db1.users, inp);
    SettleAborts(regs, db1.users, db1.results, inp, |db1.matches|, TotalPrizePool(db1.tournaments[tid]));
    assert Sync(db1, tid, Some(matchId), api).0 == Synced;
    SyncedUser(db, tid, matchId, api, uid);
    SyncedUser(db1, tid, matchId, api, uid);
    ProfilesInvariance(uid, regs, db1.users, db.users, inp, |db1.matches|);
    PrizeIsProduct(Wins(uid, regs, db.users, inp), TotalPrizePool(db.tournaments[tid]));
  }
}
