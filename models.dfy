/** Record shapes of the persisted entities and their column defaults.
    Money is kept as integer cents; timestamps and surrogate keys are left out
    (a record's key is its key in the store's map or its index in a sequence). */
module Models {

  datatype Option<T> = None | Some(value: T) {
    function GetOr(default: T): T {
      match this
      case Some(v) => v
      case None => default
    }
  }

  /** One of the three lifecycle values of the tournament `status` column. */
  datatype TournamentStatus = Upcoming | Ongoing | Completed

  /** One of the three values of the payout `status` column. */
  datatype PayoutStatus = Pending | Completed | Failed

  datatype User = User(
    username: string,
    email: string,
    passwordHash: Option<string>,
    paypalEmail: Option<string>,
    platform: string,
    xboxGamertag: Option<string>,
    psnId: Option<string>,
    xboxOauthId: Option<string>,
    psnOauthId: Option<string>,
    balance: int,        // cents
    totalKills: int,
    totalWins: int)

  datatype Tournament = Tournament(
    title: string,
    description: Option<string>,
    basePrizePool: int,        // cents
    donationTotal: int,        // cents
    sponsorCreditTotal: int,   // cents
    platform: string,
    status: TournamentStatus,
    maxPlayers: int)

  datatype Donation = Donation(tournamentId: nat, donorName: string, amount: int)

  datatype Sponsor = Sponsor(
    name: string,
    logoUrl: Option<string>,
    websiteUrl: Option<string>,
    contributionType: Option<string>)

  /** `matchId` is the statistics provider's identifier of the match. */
  datatype TournamentMatch = TournamentMatch(tournamentId: nat, matchId: Option<string>)

  /** `matchRef` is the key (index) of the TournamentMatch row it belongs to. */
  datatype MatchResult = MatchResult(matchRef: nat, userId: nat, kills: int, placement: int, win: bool)

  datatype Registration = Registration(userId: nat, tournamentId: nat)

  datatype Payout = Payout(userId: nat, amount: int, status: PayoutStatus, transactionId: Option<string>)

  /** The prize pool is derived on every read from the three stored totals; no
      field of Tournament holds it. */
  function TotalPrizePool(t: Tournament): (pool: int)
    ensures t.donationTotal >= 0 && t.sponsorCreditTotal >= 0 ==> pool >= t.basePrizePool
  {
    t.basePrizePool + t.donationTotal + t.sponsorCreditTotal
  }

  /** A user row as created with only its required columns given. */
  function NewUser(username: string, email: string, platform: string): (u: User)
    ensures u.balance == 0 && u.totalKills == 0 && u.totalWins == 0
    ensures u.username == username && u.email == email && u.platform == platform
    ensures u.paypalEmail.None? && u.xboxGamertag.None? && u.psnId.None?
  {
    User(username, email, None, None, platform, None, None, None, None, 0, 0, 0)
  }

  /** A tournament row as created with only its required columns given. */
  function NewTournament(title: string, basePrizePool: int, platform: string): (t: Tournament)
    ensures t.donationTotal == 0 && t.sponsorCreditTotal == 0
    ensures t.status == TournamentStatus.Upcoming && t.maxPlayers == 100
    ensures t.title == title && t.platform == platform
  {
    Tournament(title, None, basePrizePool, 0, 0, platform, TournamentStatus.Upcoming, 100)
  }

  /** A fresh tournament's pool is exactly its base funding. */
  lemma FreshTournamentPoolIsBase(title: string, basePrizePool: int, platform: string)
    ensures TotalPrizePool(NewTournament(title, basePrizePool, platform)) == basePrizePool
  {
  }

  /** A result row for which only the match and the user were given. */
  function NewMatchResult(matchRef: nat, userId: nat): (r: MatchResult)
    ensures r.kills == 0 && r.placement == 0 && !r.win
    ensures r.matchRef == matchRef && r.userId == userId
  {
    MatchResult(matchRef, userId, 0, 0, false)
  }

  /** A payout row for which no status was given. */
  function NewPayout(userId: nat, amount: int): (p: Payout)
    ensures p.status == PayoutStatus.Pending && p.amount == amount && p.userId == userId
    ensures p.transactionId.None?
  {
    Payout(userId, amount, PayoutStatus.Pending, None)
  }

  /** A donation row; a missing donor name becomes "Anonymous". */
  function NewDonation(tournamentId: nat, amount: int, donorName: Option<string>): (d: Donation)
    ensures donorName.None? ==> d.donorName == "Anonymous"
    ensures donorName.Some? ==> d.donorName == donorName.value
    ensures d.tournamentId == tournamentId && d.amount == amount
  {
    Donation(tournamentId, donorName.GetOr("Anonymous"), amount)
  }
}
