/** The persistence store and the request handlers that write to it. Each
    handler works on the store's tables in place and commits all of its
    changes at its end or none of them; each is proved to leave the store in
    the state the matching function of `Handlers` describes. */
module App {
  import opened Models
  import opened PubgApi
  import opened Handlers

  class Store {
    var users: map<nat, User>
    var tournaments: map<nat, Tournament>
    var registrations: seq<Registration>
    var matches: seq<TournamentMatch>
    var results: seq<MatchResult>
    var donations: seq<Donation>
    var payouts: seq<Payout>
    var sponsors: seq<Sponsor>

    /** The store's tables as one value. */
    function Snapshot(): Db
      reads this
    {
      Db(users, tournaments, registrations, matches, results, donations, payouts, sponsors)
    }

    constructor (db: Db)
      ensures Snapshot() == db
    {
      users, tournaments, registrations := db.users, db.tournaments, db.registrations;
      matches, results, donations := db.matches, db.results, db.donations;
      payouts, sponsors := db.payouts, db.sponsors;
    }

    /** A donation of `amount` cents to tournament `tid`. */
    method DonateToTournament(tid: nat, amount: int, donorName: Option<string>) returns (outcome: DonateOutcome)
      modifies this
      ensures (outcome, Snapshot()) == Donate(old(Snapshot()), tid, amount, donorName)
    {
      if tid !in tournaments {
        return DonateNotFound;
      }
      var tournament := tournaments[tid];
      if amount > 0 {
        var donation := NewDonation(tid, amount, donorName);
        tournament := tournament.(donationTotal := tournament.donationTotal + amount);
        tournaments := tournaments[tid := tournament];
        donations := donations + [donation];
        outcome := Donated;
      } else {
        outcome := DonationIgnored;
      }
    }

    /** One sponsor interaction credited to tournament `tid`. */
    method EarnSponsorCredit(tid: nat) returns (outcome: CreditOutcome)
      modifies this
      ensures (outcome, Snapshot()) == Handlers.EarnSponsorCredit(old(Snapshot()), tid)
    {
      if tid !in tournaments {
        return CreditNotFound;
      }
      var tournament := tournaments[tid];
      var creditAmount := SponsorCredit;
      tournament := tournament.(sponsorCreditTotal := tournament.sponsorCreditTotal + creditAmount);
      tournaments := tournaments[tid := tournament];
      outcome := CreditEarned;
    }

    /** Settlement of match `matchId` of tournament `tid`: records the match,
        then walks the tournament's registrations, writing a result row and
        updating the totals of every registrant found in the match. The
        provider's answers are `api`. */
    method SyncTournamentStats(tid: nat, matchId: Option<string>, api: StatsProvider) returns (outcome: SyncOutcome)
      modifies this
      ensures (outcome, Snapshot()) == Sync(old(Snapshot()), tid, matchId, api)
    {
      if tid !in tournaments {
        return SyncNotFound;
      }
      var tournament := tournaments[tid];
      if matchId.None? || matchId.value == "" {
        return MatchIdRequired;
      }
      var matchData := GetMatchDetails(api, tournament.platform, matchId.value);
      if matchData.None? || !Truthy(matchData.value) {
        return MatchFetchFailed;
      }
      var doc := matchData.value;
      var newMatch := TournamentMatch(tid, matchId);
      var matchRef := |matches|;
      var pool := TotalPrizePool(tournament);
      var inp := SyncInputs(tournament.platform, doc, api);

      // The participant loop works on pending copies, committed only at the end.
      var settled := Settle(TournamentRegistrations(registrations, tid), users, results, inp, matchRef, pool);
      if settled.None? {
        return SyncCrashed;
      }
      matches := matches + [newMatch];
      users := settled.value.0;
      results := settled.value.1;
      outcome := Synced;
    }

    /** A payout of user `userId`'s whole balance, asked for by the
        authenticated user `currentUserId`; `providerAccepts` is the payment
        provider's answer. */
    method RequestPayout(userId: nat, currentUserId: nat, providerAccepts: bool) returns (outcome: PayoutOutcome)
      modifies this
      ensures (outcome, Snapshot()) == Handlers.RequestPayout(old(Snapshot()), userId, currentUserId, providerAccepts)
    {
      if userId !in users {
        return PayoutUserNotFound;
      }
      var user := users[userId];
      if userId != currentUserId {
        return Unauthorized;
      }
      if user.balance <= 0 {
        return InsufficientBalance;
      }
      if providerAccepts {
        var newPayout := Payout(userId, user.balance, PayoutStatus.Completed, None);
        user := user.(balance := 0);
        users := users[userId := user];
        payouts := payouts + [newPayout];
        outcome := PayoutSucceeded;
      } else {
        outcome := ProviderRejected;
      }
    }

    /** Seeds the sponsor table when it is empty. */
    method InitSponsors() returns (outcome: SeedOutcome)
      modifies this
      ensures (outcome, Snapshot()) == Handlers.InitSponsors(old(Snapshot()))
    {
      if |sponsors| == 0 {
        assert sponsors + SeedSponsors() == SeedSponsors();
        sponsors := sponsors + SeedSponsors();
        outcome := SponsorsSeeded;
      } else {
        outcome := SponsorsPresent;
      }
    }
  }

  /** The participant loop of the settlement handler over `regs`, on pending
      copies of the users and the result rows; `None` when a lookup raises. */
  method Settle(regs: seq<Registration>, users: map<nat, User>, results: seq<MatchResult>, inp: SyncInputs,
                matchRef: nat, pool: int) returns (settled: Option<(map<nat, User>, seq<MatchResult>)>)
    ensures settled == SettleFrom(regs, users, results, inp, matchRef, pool)
  {
    var pendingUsers, pendingResults := users, results;
    var i := 0;
    while i < |regs|
      invariant 0 <= i <= |regs|
      invariant SettleFrom(regs, users, results, inp, matchRef, pool) ==
                SettleFrom(regs[i..], pendingUsers, pendingResults, inp, matchRef, pool)
    {
      var reg := regs[i];
      ghost var rest := regs[i + 1..];
      assert regs[i..] == [reg] + rest;
      var step := ParticipantStep(reg, pendingUsers, inp.platform, inp.doc, inp.api);
      SettleStep(reg, rest, pendingUsers, pendingResults, inp, matchRef, pool);
      match step {
        case Abort =>
          return None;
        case Skip =>
        case Credit(s) =>
          ghost var before := pendingUsers;
          var user := pendingUsers[reg.userId];
          pendingResults := pendingResults + [MatchResult(matchRef, reg.userId, s.kills, s.placement, s.win)];
          user := user.(totalKills := user.totalKills + s.kills);
          if s.win {
            user := user.(totalWins := user.totalWins + 1, balance := user.balance + pool);
          }
          pendingUsers := pendingUsers[reg.userId := user];
          assert user == Award(before[reg.userId], s, pool);
      }
      i := i + 1;
    }
    settled := Some((pendingUsers, pendingResults));
  }

  /** The lookups the settlement loop makes for one registration: its user,
      the user's handle on the tournament's platform, the player lookup and
      the extraction from the match document. `Abort` stands for the two
      lookups that raise. */
  method ParticipantStep(reg: Registration, users: map<nat, User>, platform: string, doc: MatchDocument,
                         api: StatsProvider) returns (step: Step)
    ensures step == StepOf(reg, users, SyncInputs(platform, doc, api))
  {
    if reg.userId !in users {
      // the user lookup yields nothing and reading its handle raises
      return Abort;
    }
    var user := users[reg.userId];
    var gamertag := if IsXbox(platform) then user.xboxGamertag else user.psnId;
    if gamertag.None? || gamertag.value == "" {
      return Skip;
    }
    var playerData := GetPlayerStats(api, platform, gamertag.value);
    if playerData.None? || playerData.value.data.None? {
      return Skip;
    }
    var accounts := playerData.value.data.value;
    if |accounts| == 0 {
      // indexing the empty `data` list raises
      return Abort;
    }
    var stats := ExtractPlayerStats(doc, accounts[0]);
    step := if stats.Some? then Credit(stats.value) else Skip;
  }

  /** The match of the example below: the player's participant entry, after
      a roster entry that carries the same id, reports 4 kills and a win. */
  function ExampleMatch(): MatchDocument {
    var stats := Stats(Some("account.ace"), Some(4), Some(1));
    MatchDocument(Some([Item(Some("roster"), stats), Item(Some("participant"), stats)]), true)
  }

  /** The provider's answers in the example below. */
  function ExampleApi(): StatsProvider {
    StatsProvider(map[("psn", "AcePSN") := PlayerDocument(Some(["account.ace"]))], map[("psn", "m-1") := ExampleMatch()])
  }

  /** The example's registrant is found and credited with a win. */
  lemma ExampleParticipantWins(player: User)
    requires player.psnId == Some("AcePSN")
    ensures StepOf(Registration(1, 7), map[1 := player], SyncInputs("PS5", ExampleMatch(), ExampleApi())) ==
            Credit(PlayerStats(4, 1, true))
  {
    assert !IsXbox("PS5") && Shard("PS5") == "psn";
    var items := ExampleMatch().included.value;
    assert !IsParticipantFor(items[0], "account.ace") && IsParticipantFor(items[1], "account.ace");
    ExtractSelectsFirst(items, "account.ace", 1);
  }

  /** Settling the example match pays the whole pool to its single winner. */
  lemma ExampleSyncPaysWinner(db: Db, player: User, t: Tournament)
    requires player.psnId == Some("AcePSN") && t.platform == "PS5" && TotalPrizePool(t) == 15000
    requires db == Db(map[1 := player], map[7 := t], [Registration(1, 7)], [], [], db.donations, [], [])
    ensures Sync(db, 7, Some("m-1"), ExampleApi()) ==
      (Synced, db.(matches := [TournamentMatch(7, Some("m-1"))],
                   users := map[1 := Credited(player, 1, 4, 15000)],
                   results := [MatchResult(0, 1, 4, 1, true)]))
  {
    var api := ExampleApi();
    var won := PlayerStats(4, 1, true);
    var inp := SyncInputs("PS5", ExampleMatch(), api);
    ExampleParticipantWins(player);
    assert Shard("PS5") == "psn";
    assert FetchedMatch(db, 7, "m-1", api) == Some(ExampleMatch());
    assert TournamentRegistrations(db.registrations, 7) == [Registration(1, 7)];
    assert Prize(1, 15000) == 15000;
    assert Award(player, won, 15000) == Credited(player, 1, 4, 15000);
    assert db.users[1 := Award(player, won, 15000)] == map[1 := Credited(player, 1, 4, 15000)];
    assert db.registrations[1..] == [] && [] + [ResultRow(0, 1, won)] == [MatchResult(0, 1, 4, 1, true)];
    assert SettleFrom(db.registrations, db.users, [], inp, 0, 15000) ==
           Some((map[1 := Credited(player, 1, 4, 15000)], [MatchResult(0, 1, 4, 1, true)]));
    assert db.matches + [TournamentMatch(7, Some("m-1"))] == [TournamentMatch(7, Some("m-1"))];
  }

  /** A client of the store: a donation made before settlement is part of
      the prize a winner receives, and the winner can then cash it out. */
  method SettlementExample() {
    var player := NewUser("ace", "ace@example.com", "PS5").(psnId := Some("AcePSN"));
    var tournament := NewTournament("Weekly", 10000, "PS5");
    var store := new Store(Db(map[1 := player], map[7 := tournament], [Registration(1, 7)], [], [], [], [], []));

    var donated := store.DonateToTournament(7, 5000, None);
    assert donated == Donated;

    ExampleSyncPaysWinner(store.Snapshot(), player, store.tournaments[7]);
    var synced := store.SyncTournamentStats(7, Some("m-1"), ExampleApi());
    assert synced == Synced;
    assert store.users[1].balance == 15000 && store.users[1].totalKills == 4 && store.users[1].totalWins == 1;
    assert store.results == [MatchResult(0, 1, 4, 1, true)];

    var paid := store.RequestPayout(1, 1, true);
    assert paid == PayoutSucceeded;
    assert store.users[1].balance == 0 && store.payouts == [Payout(1, 15000, PayoutStatus.Completed, None)];
  }
}
