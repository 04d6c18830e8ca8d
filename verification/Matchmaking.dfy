/** The ghosts that finished matches leave behind, by EP band: at most 20 per band, one per account,
    the one of the oldest block making room; and the choice of three of them for a new match. */
module Matchmaking {
  import opened Types
  import opened Leaderboard

  const GHOSTS_PER_BAND: nat := 20
  const GHOST_COUNT: nat := 3
  const EP_BANDWIDTH: nat := 100

  function EpBand(ep: U16): U16 { ep / EP_BANDWIDTH }

  datatype Entry = Entry(block: nat, account: Account)

  /** One band: who is listed, and the ghost stored for each index. */
  datatype Band = Band(info: seq<Entry>, ghosts: map<nat, Ghost>)

  datatype Submission = Submission(block: nat, account: Account, g: Ghost)

  // ----- adding a ghost -----

  function Position(info: seq<Entry>, account: Account): (r: Option<nat>)
    ensures r.Some? ==> r.value < |info| && info[r.value].account == account
    ensures r.None? ==> forall i :: 0 <= i < |info| ==> info[i].account != account
  {
    if info == [] then None
    else if info[0].account == account then Some(0)
    else
      var i := Position(info[1..], account);
      if i.None? then (assert forall j :: 1 <= j < |info| ==> info[j] == info[1..][j - 1]; None) else Some(i.value + 1)
  }

  /** The first entry of the oldest block. */
  function Oldest(info: seq<Entry>): (i: nat)
    requires info != []
    ensures i < |info|
    ensures forall j :: 0 <= j < |info| ==> info[i].block <= info[j].block
    ensures forall j :: 0 <= j < i ==> info[i].block < info[j].block
  {
    if |info| == 1 then 0
    else
      var i := Oldest(info[..|info| - 1]);
      if info[|info| - 1].block < info[i].block then |info| - 1 else i
  }

  function Slot(info: seq<Entry>, account: Account): nat {
    var known := Position(info, account);
    if known.Some? then known.value else if |info| < GHOSTS_PER_BAND then |info| else Oldest(info)
  }

  function Add(band: Band, s: Submission): Band {
    var slot, entry := Slot(band.info, s.account), Entry(s.block, s.account);
    Band(if slot < |band.info| then band.info[slot := entry] else band.info + [entry], band.ghosts[slot := s.g])
  }

  /** The scan of the program for the entry to overwrite. */
  method FindOldest(info: seq<Entry>) returns (oldest: nat)
    requires info != []
    ensures oldest == Oldest(info)
  {
    oldest := 0;
    var block := info[0].block;
    for i := 1 to |info|
      invariant oldest == Oldest(info[..i]) && block == info[oldest].block
    {
      assert info[..i + 1][..i] == info[..i];
      if info[i].block < block {
        block := info[i].block;
        oldest := i;
      }
    }
    assert info[..|info|] == info;
  }

  /** The new list of a band and the index whose ghost is overwritten. */
  method AddEntry(info: seq<Entry>, block: nat, account: Account) returns (r: seq<Entry>, index: nat)
    ensures index == Slot(info, account) <= |info|
    ensures r == if index < |info| then info[index := Entry(block, account)] else info + [Entry(block, account)]
  {
    var known := Position(info, account);
    if known.Some? {
      index := known.value;
      r := info[index := Entry(block, account)];
    } else if |info| < GHOSTS_PER_BAND {
      r := info + [Entry(block, account)];
      index := |r| - 1;
    } else {
      index := FindOldest(info);
      r := info[index := Entry(block, account)];
    }
  }

  // ----- what every band keeps -----

  ghost predicate Sane(band: Band) {
    && |band.info| <= GHOSTS_PER_BAND
    && (forall i, j :: 0 <= i < j < |band.info| ==> band.info[i].account != band.info[j].account)
    && (forall i :: 0 <= i < |band.info| ==> i in band.ghosts)
  }

  lemma AddIsSane(band: Band, s: Submission)
    requires Sane(band)
    ensures Sane(Add(band, s))
  {
  }

  // ----- the band as a map from accounts -----

  function Listed(band: Band): map<Account, (nat, Ghost)>
    requires Sane(band)
  {
    map i | 0 <= i < |band.info| :: band.info[i].account := (band.info[i].block, band.ghosts[i])
  }

  /** The map with room made for the account, when it needs any, at the cost of `victim`. */
  function MakeRoom(m: map<Account, (nat, Ghost)>, account: Account, victim: Account): map<Account, (nat, Ghost)> {
    if account in m || |m| < GHOSTS_PER_BAND then m else m - {victim}
  }

  lemma {:induction false} ListedSize(info: seq<Entry>, accounts: set<Account>)
    requires forall i, j :: 0 <= i < j < |info| ==> info[i].account != info[j].account
    requires accounts == set i | 0 <= i < |info| :: info[i].account
    ensures |accounts| == |info|
  {
    if info != [] {
      var last := info[|info| - 1].account;
      var front := info[..|info| - 1];
      var rest := set i | 0 <= i < |front| :: front[i].account;
      assert forall i :: 0 <= i < |front| ==> front[i] == info[i];
      ListedSize(front, rest);
      assert last !in rest;
      forall a ensures a in accounts <==> a in rest + {last} {
        if a in accounts {
          var i :| 0 <= i < |info| && info[i].account == a;
          if i < |front| {
            assert front[i].account == a;
          }
        }
        if a in rest {
          var i :| 0 <= i < |front| && front[i].account == a;
          assert info[i].account == a;
        }
      }
      assert accounts == rest + {last};
    } else {
      assert accounts == {};
    }
  }

  lemma ListedHasAll(band: Band)
    requires Sane(band)
    ensures |Listed(band)| == |band.info|
  {
    var accounts := set i | 0 <= i < |band.info| :: band.info[i].account;
    ListedSize(band.info, accounts);
    assert Listed(band).Keys == accounts;
    assert |Listed(band)| == |Listed(band).Keys|;
  }

  lemma ListedAt(band: Band, i: nat)
    requires Sane(band) && i < |band.info|
    ensures band.info[i].account in Listed(band)
    ensures Listed(band)[band.info[i].account] == (band.info[i].block, band.ghosts[i])
  {
  }

  /** The victim of a submission: nobody's entry is older. */
  ghost predicate IsOldest(m: map<Account, (nat, Ghost)>, victim: Account) {
    victim in m && forall a :: a in m ==> m[victim].0 <= m[a].0
  }

  lemma ListedIs(band: Band, a: Account)
    requires Sane(band)
    ensures a in Listed(band) <==> Position(band.info, a).Some?
    ensures a in Listed(band) ==>
              var i := Position(band.info, a).value; Listed(band)[a] == (band.info[i].block, band.ghosts[i])
  {
    if Position(band.info, a).Some? {
      ListedAt(band, Position(band.info, a).value);
    }
  }

  /** Where an account is listed after a submission. */
  lemma PositionAfter(band: Band, s: Submission, a: Account)
    requires Sane(band)
    ensures var slot, was, now := Slot(band.info, s.account), Position(band.info, a), Position(Add(band, s).info, a);
            && (a == s.account ==> now == Some(slot))
            && (a != s.account ==> now == if was == Some(slot) then None else was)
            && slot <= |band.info|
  {
    hide Oldest;
    AddIsSane(band, s);
    var slot, after := Slot(band.info, s.account), Add(band, s);
    assert after.info[slot].account == s.account;
    var was, now := Position(band.info, a), Position(after.info, a);
    if was.Some? && was.value != slot {
      assert after.info[was.value].account == a;
    }
  }

  /** The band is a map from account to latest ghost, with at most 20 keys, that drops an entry of the oldest block. */
  lemma AddIsMapUpdate(band: Band, s: Submission) returns (victim: Account)
    requires Sane(band)
    ensures Sane(Add(band, s))
    ensures Listed(Add(band, s)) == MakeRoom(Listed(band), s.account, victim)[s.account := (s.block, s.g)]
    ensures s.account in Listed(band) || |Listed(band)| < GHOSTS_PER_BAND || IsOldest(Listed(band), victim)
  {
    hide Listed;
    hide Oldest;
    hide Sane;
    hide IsOldest;
    AddIsSane(band, s);
    ListedHasAll(band);
    var slot, after := Slot(band.info, s.account), Add(band, s);
    victim := if slot < |band.info| then band.info[slot].account else 0;
    if s.account !in Listed(band) && |Listed(band)| >= GHOSTS_PER_BAND {
      OldestIsVictim(band, s);
    }
    var m := MakeRoom(Listed(band), s.account, victim)[s.account := (s.block, s.g)];
    forall a
      ensures a in Listed(after) <==> a in m
      ensures a in m ==> Listed(after)[a] == m[a]
    {
      OneKey(band, s, a, victim);
    }
  }

  lemma OneKey(band: Band, s: Submission, a: Account, victim: Account)
    requires Sane(band) && Sane(Add(band, s)) && |Listed(band)| == |band.info|
    requires Slot(band.info, s.account) < |band.info| ==> victim == band.info[Slot(band.info, s.account)].account
    ensures var m := MakeRoom(Listed(band), s.account, victim)[s.account := (s.block, s.g)];
            (a in Listed(Add(band, s)) <==> a in m) && (a in m ==> Listed(Add(band, s))[a] == m[a])
  {
    hide Listed;
    hide Oldest;
    hide Sane;
    hide Position;
    ListedIs(band, a);
    ListedIs(band, s.account);
    ListedIs(Add(band, s), a);
    PositionAfter(band, s, a);
    var slot := Slot(band.info, s.account);
    if slot < |band.info| {
      PositionOf(band, slot);
    }
  }

  lemma PositionOf(band: Band, i: nat)
    requires Sane(band) && i < |band.info|
    ensures Position(band.info, band.info[i].account) == Some(i)
  {
  }

  lemma OldestIsVictim(band: Band, s: Submission)
    requires Sane(band) && s.account !in Listed(band) && |band.info| >= GHOSTS_PER_BAND
    ensures Slot(band.info, s.account) < |band.info|
    ensures IsOldest(Listed(band), band.info[Slot(band.info, s.account)].account)
  {
    if Position(band.info, s.account).Some? {
      ListedAt(band, Position(band.info, s.account).value);
    }
    var slot := Oldest(band.info);
    ListedAt(band, slot);
  }

  // ----- any run of submissions to a band -----

  function AddAll(subs: seq<Submission>): Band
    decreases |subs|
  {
    if subs == [] then Band([], map[]) else Add(AddAll(subs[..|subs| - 1]), subs[|subs| - 1])
  }

  /** The last submission of an account. */
  function Latest(subs: seq<Submission>, account: Account): Option<Submission>
    decreases |subs|
  {
    if subs == [] then None
    else if subs[|subs| - 1].account == account then Some(subs[|subs| - 1])
    else Latest(subs[..|subs| - 1], account)
  }

  ghost predicate InTime(subs: seq<Submission>) { forall i, j :: 0 <= i < j < |subs| ==> subs[i].block <= subs[j].block }

  /** Every entry is its account's latest submission; who submitted and is not listed gave way to 20 entries that are no older. */
  ghost predicate UpToDate(band: Band, subs: seq<Submission>) {
    && Sane(band)
    && (forall i :: 0 <= i < |band.info| ==>
          Latest(subs, band.info[i].account) == Some(Submission(band.info[i].block, band.info[i].account, band.ghosts[i])))
    && (forall a :: Latest(subs, a).Some? && Position(band.info, a).None? ==>
          |band.info| == GHOSTS_PER_BAND
          && forall i :: 0 <= i < |band.info| ==> Latest(subs, a).value.block <= band.info[i].block)
  }

  lemma {:induction false} LatestIsPast(subs: seq<Submission>, account: Account)
    ensures var r := Latest(subs, account); r.Some? ==> r.value in subs && r.value.account == account
    decreases |subs|
  {
    if subs != [] {
      LatestIsPast(subs[..|subs| - 1], account);
    }
  }

  lemma AddStaysUpToDate(band: Band, before: seq<Submission>, s: Submission)
    requires UpToDate(band, before) && forall x :: x in before ==> x.block <= s.block
    ensures UpToDate(Add(band, s), before + [s])
  {
    hide Oldest;
    hide Position;
    var subs, after, slot := before + [s], Add(band, s), Slot(band.info, s.account);
    assert subs[..|subs| - 1] == before;
    AddIsSane(band, s);
    forall i | 0 <= i < |after.info|
      ensures Latest(subs, after.info[i].account) == Some(Submission(after.info[i].block, after.info[i].account, after.ghosts[i]))
    {
      assert i != slot ==> after.info[i] == band.info[i];
    }
    forall a, i | Latest(subs, a).Some? && Position(after.info, a).None? && 0 <= i < |after.info|
      ensures |after.info| == GHOSTS_PER_BAND && Latest(subs, a).value.block <= after.info[i].block
    {
      assert after.info[slot].account == s.account;
      PositionAfter(band, s, a);
      assert a != s.account && Latest(subs, a) == Latest(before, a);
      LatestIsPast(before, a);
      if Position(band.info, a).Some? {
        AddEvicts(band, s, i);
      }
    }
  }

  /** An entry gives way only when the band is full, and only to entries that are no older. */
  lemma AddEvicts(band: Band, s: Submission, i: nat)
    requires Sane(band) && Slot(band.info, s.account) < |band.info|
    requires band.info[Slot(band.info, s.account)].account != s.account && i < |band.info|
    ensures |band.info| == GHOSTS_PER_BAND && band.info[Slot(band.info, s.account)].block <= band.info[i].block
  {
  }

  /** After any run of submissions, in the order of their blocks. */
  lemma {:induction false} BandsAreUpToDate(subs: seq<Submission>)
    requires InTime(subs)
    ensures UpToDate(AddAll(subs), subs)
    decreases |subs|
  {
    hide Add;
    if subs != [] {
      var before, s := subs[..|subs| - 1], subs[|subs| - 1];
      BandsAreUpToDate(before);
      assert subs == before + [s];
      AddStaysUpToDate(AddAll(before), before, s);
    }
  }
}
