/** The statistics-provider client: shard choice, the shapes of the two
    documents it returns, and the extraction of one player's stats from a
    match document. The HTTP requests themselves are replaced by a
    `StatsProvider` value that holds every answer the provider would give. */
module PubgApi {
  import opened Models

  /** ASCII lower-casing of one character. */
  function LowerChar(c: char): char {
    if 'A' <= c <= 'Z' then (c as int - 'A' as int + 'a' as int) as char else c
  }

  /** Lower-casing of a string, character by character. */
  function Lower(s: string): (r: string)
    ensures |r| == |s|
    ensures forall i :: 0 <= i < |s| ==> r[i] == LowerChar(s[i])
  {
    if s == [] then [] else [LowerChar(s[0])] + Lower(s[1..])
  }

  /** The platform test shared by the client and the settlement handler. */
  predicate IsXbox(platform: string) {
    Lower(platform) == "xbox"
  }

  /** The shard a request for `platform` is sent to. */
  function Shard(platform: string): (shard: string)
    ensures shard == "xbox" || shard == "psn"
    ensures shard == "xbox" <==> IsXbox(platform)
    ensures shard == "psn" <==> !IsXbox(platform)
  {
    if IsXbox(platform) then "xbox" else "psn"
  }

  /** The platforms that select the xbox shard are exactly the spellings of
      "xbox" in any mix of upper and lower case. */
  lemma IsXboxSpellings(platform: string)
    ensures IsXbox(platform) <==>
      |platform| == 4 && platform[0] in "xX" && platform[1] in "bB" &&
      platform[2] in "oO" && platform[3] in "xX"
  {
    var low := Lower(platform);
    if IsXbox(platform) {
      assert low[0] == 'x' && low[1] == 'b' && low[2] == 'o' && low[3] == 'x';
    }
    if |platform| == 4 && platform[0] in "xX" && platform[1] in "bB" &&
       platform[2] in "oO" && platform[3] in "xX" {
      assert low == "xbox";
    }
  }

  /** The `stats` object of an included item. A missing `attributes` or
      `stats` object reads as a Stats with every member absent. */
  datatype Stats = Stats(playerId: Option<string>, kills: Option<int>, winPlace: Option<int>)

  /** One element of the match document's `included` list. */
  datatype Item = Item(itemType: Option<string>, stats: Stats)

  /** A match document: its optional `included` list, and whether it has any
      other top-level member (an empty JSON object is falsy in the handler). */
  datatype MatchDocument = MatchDocument(included: Option<seq<Item>>, hasOtherMembers: bool)

  /** Python's truth test on the decoded document: only the empty object is falsy. */
  predicate Truthy(doc: MatchDocument): (b: bool)
    ensures !b <==> doc == MatchDocument(None, false)
  {
    doc.included.Some? || doc.hasOtherMembers
  }

  /** A player-lookup document: the account ids listed under its optional `data` member. */
  datatype PlayerDocument = PlayerDocument(data: Option<seq<string>>)

  /** Every answer the provider would give, keyed by (shard, player name) and
      (shard, match id). A key that is absent stands for a non-200 response. */
  datatype StatsProvider = StatsProvider(
    players: map<(string, string), PlayerDocument>,
    matches: map<(string, string), MatchDocument>)

  /** The normalized result of one participant in one match. */
  datatype PlayerStats = PlayerStats(kills: int, placement: int, win: bool)

  /** The player lookup, sent to the shard of `platform`. */
  function GetPlayerStats(api: StatsProvider, platform: string, gamertag: string): (r: Option<PlayerDocument>)
    ensures r.Some? <==> (Shard(platform), gamertag) in api.players
    ensures r.Some? ==> r.value == api.players[(Shard(platform), gamertag)]
  {
    var key := (Shard(platform), gamertag);
    if key in api.players then Some(api.players[key]) else None
  }

  /** The match request, sent to the shard of `platform`. */
  function GetMatchDetails(api: StatsProvider, platform: string, matchId: string): (r: Option<MatchDocument>)
    ensures r.Some? <==> (Shard(platform), matchId) in api.matches
    ensures r.Some? ==> r.value == api.matches[(Shard(platform), matchId)]
  {
    var key := (Shard(platform), matchId);
    if key in api.matches then Some(api.matches[key]) else None
  }

  /** Both requests depend on the platform only through its lower-cased
      spelling: "Xbox", "XBOX" and "xbox" reach the same answers. */
  lemma LookupsIgnoreCase(api: StatsProvider, p: string, q: string, name: string)
    requires Lower(p) == Lower(q)
    ensures GetPlayerStats(api, p, name) == GetPlayerStats(api, q, name)
    ensures GetMatchDetails(api, p, name) == GetMatchDetails(api, q, name)
  {
  }

  /** The platform value "Xbox Series" is not the spelling "xbox", so its
      requests go to the psn shard. */
  lemma XboxSeriesUsesPsnShard()
    ensures Shard("Xbox Series") == "psn"
  {
    assert |Lower("Xbox Series")| == 11;
  }

  /** The item is the participant entry of `accountId`. */
  predicate IsParticipantFor(item: Item, accountId: string) {
    item.itemType == Some("participant") && item.stats.playerId == Some(accountId)
  }

  /** Reads kills and placement with their defaults and derives the win flag. */
  function StatsOf(s: Stats): (r: PlayerStats)
    ensures r.win <==> r.placement == 1
    ensures s.kills.None? ==> r.kills == 0
    ensures s.kills.Some? ==> r.kills == s.kills.value
    ensures s.winPlace.None? ==> r.placement == 0 && !r.win
    ensures s.winPlace.Some? ==> r.placement == s.winPlace.value
  {
    PlayerStats(s.kills.GetOr(0), s.winPlace.GetOr(0), s.winPlace == Some(1))
  }

  /** Linear search of `items` for the participant of `accountId`. */
  function ExtractFrom(items: seq<Item>, accountId: string): (r: Option<PlayerStats>)
    ensures r.None? <==> forall i :: 0 <= i < |items| ==> !IsParticipantFor(items[i], accountId)
    ensures r.Some? ==>
      exists i :: 0 <= i < |items| && IsParticipantFor(items[i], accountId) &&
        (forall j :: 0 <= j < i ==> !IsParticipantFor(items[j], accountId)) &&
        r.value == StatsOf(items[i].stats)
  {
    if items == [] then None
    else if IsParticipantFor(items[0], accountId) then Some(StatsOf(items[0].stats))
    else
      var rest := ExtractFrom(items[1..], accountId);
      assert forall i :: 1 <= i < |items| ==> items[i] == items[1..][i - 1];
      rest
  }

  /** The stats of `accountId` in a match document; an absent `included`
      list is searched as an empty one. */
  function ExtractPlayerStats(doc: MatchDocument, accountId: string): (r: Option<PlayerStats>)
    ensures doc.included.None? ==> r.None?
    ensures r.Some? ==> (r.value.win <==> r.value.placement == 1)
  {
    ExtractFrom(doc.included.GetOr([]), accountId)
  }

  /** The first matching participant is the one selected. */
  lemma {:induction false} ExtractSelectsFirst(items: seq<Item>, accountId: string, i: nat)
    requires i < |items| && IsParticipantFor(items[i], accountId)
    requires forall j :: 0 <= j < i ==> !IsParticipantFor(items[j], accountId)
    ensures ExtractFrom(items, accountId) == Some(StatsOf(items[i].stats))
  {
    if i > 0 {
      assert !IsParticipantFor(items[0], accountId);
      assert forall j :: 0 <= j < i - 1 ==> items[1..][j] == items[j + 1];
      ExtractSelectsFirst(items[1..], accountId, i - 1);
    }
  }

  /** An item that is not of type participant never influences the search,
      even when its stats carry the wanted player id. */
  lemma {:induction false} ExtractIgnoresNonParticipant(pre: seq<Item>, x: Item, post: seq<Item>, accountId: string)
    requires x.itemType != Some("participant")
    ensures ExtractFrom(pre + [x] + post, accountId) == ExtractFrom(pre + post, accountId)
  {
    if pre == [] {
      assert pre + [x] + post == [x] + post;
      assert ([x] + post)[1..] == post;
      assert pre + post == post;
    } else {
      ExtractIgnoresNonParticipant(pre[1..], x, post, accountId);
      assert (pre + [x] + post)[0] == pre[0];
      assert (pre + [x] + post)[1..] == pre[1..] + [x] + post;
      assert (pre + post)[0] == pre[0];
      assert (pre + post)[1..] == pre[1..] + post;
    }
  }
}
