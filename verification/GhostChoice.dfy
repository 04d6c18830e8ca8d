/** The three rivals of a new match: ghosts of the player's EP band and, while there are too few, of
    the bands below it. */
module GhostChoice {
  import opened Types
  import opened Rng
  import opened Leaderboard
  import opened Matchmaking

  type Bands = map<U16, Band>

  datatype Place = Place(band: U16, index: nat)

  type Rival = Option<(Account, Ghost)>

  function Size(bands: Bands, band: U16): nat { if band in bands then |bands[band].info| else 0 }

  function Places(band: U16, n: nat): (r: seq<Place>)
    ensures |r| == n
  {
    seq(n, i requires 0 <= i < n => Place(band, i))
  }

  /** The bands consulted from `band` downwards, `have` ghosts being at hand already. */
  function Gather(bands: Bands, band: U16, have: nat): seq<U16>
    decreases band
  {
    var here: seq<U16> := if band in bands then [band] else [];
    if band in bands && have + Size(bands, band) >= GHOST_COUNT then here
    else if band == 0 then here
    else here + Gather(bands, band - 1, have + Size(bands, band))
  }

  function Pick(bands: Bands, order: seq<U16>, n: nat, tape: Tape): seq<Place>
    decreases |order|
  {
    if order == [] then []
    else
      var drawn := Draw(Places(order[0], Size(bands, order[0])), n, tape);
      drawn + Pick(bands, order[1..], n - |drawn|, After(tape, n))
  }

  /** The rivals at these places; None when a ghost is missing from the store. */
  function Fetch(bands: Bands, places: seq<Place>): Option<seq<(Account, Ghost)>> {
    if places == [] then Some([])
    else
      var p := places[0];
      var rest :- Fetch(bands, places[1..]);
      if p.band in bands && p.index < |bands[p.band].info| && p.index in bands[p.band].ghosts
      then Some([(bands[p.band].info[p.index].account, bands[p.band].ghosts[p.index])] + rest) else None
  }

  function PickAll(bands: Bands, ep: U16, tape: Tape): seq<Place> {
    Pick(bands, Gather(bands, EpBand(ep), 0), GHOST_COUNT, tape)
  }

  function Presented(rivals: seq<(Account, Ghost)>): seq<Rival> {
    seq(|rivals|, i requires 0 <= i < |rivals| => Some(rivals[i]))
  }

  function Vacant(n: nat): seq<Rival> { if n == 0 then [] else Vacant(n - 1) + [None] }

  function Choose(bands: Bands, ep: U16, tape: Tape, order: Tape): Option<seq<Rival>> {
    var rivals :- Fetch(bands, PickAll(bands, ep, tape));
    if |rivals| > GHOST_COUNT then None
    else Some(Presented(Shuffle(rivals, order)) + Vacant(GHOST_COUNT - |rivals|))
  }

  lemma PickMore(bands: Bands, order: seq<U16>, n: nat, tape: Tape)
    requires order != []
    ensures var drawn := Draw(Places(order[0], Size(bands, order[0])), n, tape);
            |drawn| <= n && Pick(bands, order, n, tape) == drawn + Pick(bands, order[1..], n - |drawn|, After(tape, n))
  {
    hide Draw;
    hide Places;
    hide After;
  }

  // ----- the program -----

  method GatherBands(bands: Bands, ep: U16) returns (order: seq<U16>)
    ensures order == Gather(bands, EpBand(ep), 0)
  {
    var epBand := EpBand(ep);
    order := [];
    var total: nat := 0;
    while true
      invariant epBand < 0x1_0000
      invariant Gather(bands, EpBand(ep), 0) == order + Gather(bands, epBand, total)
      decreases epBand
    {
      if epBand in bands {
        order := order + [epBand];
        total := total + |bands[epBand].info|;
        if total >= GHOST_COUNT {
          return;
        }
      }
      if epBand < 1 {
        return;
      }
      epBand := epBand - 1;
    }
  }

  method ChooseGhosts(bands: Bands, ep: U16, tape: Tape, order: Tape) returns (r: Option<seq<Rival>>)
    ensures r == Choose(bands, ep, tape, order)
  {
    hide Draw;
    hide Pick;
    hide Shuffle;
    hide Places;
    var consulted := GatherBands(bands, ep);
    var rest := tape;
    var places: seq<Place> := [];
    var left: nat := GHOST_COUNT;
    for i := 0 to |consulted|
      invariant PickAll(bands, ep, tape) == places + Pick(bands, consulted[i..], left, rest)
    {
      assert consulted[i..][1..] == consulted[i + 1..];
      PickMore(bands, consulted[i..], left, rest);
      var drawn := Draw(Places(consulted[i], Size(bands, consulted[i])), left, rest);
      places := places + drawn;
      rest := After(rest, left);
      left := left - |drawn|;
    }
    PickNone(bands, left, rest);
    assert consulted[|consulted|..] == [] && places + [] == places;
    var rivals := Fetch(bands, places);
    if rivals.None? || |rivals.value| > GHOST_COUNT {
      return None;
    }
    var seats := FillUp(Presented(Shuffle(rivals.value, order)), GHOST_COUNT - |rivals.value|);
    return Some(seats);
  }

  lemma PickNone(bands: Bands, n: nat, tape: Tape)
    ensures Pick(bands, [], n, tape) == []
  {
  }

  method FillUp(chosen: seq<Rival>, n: nat) returns (seats: seq<Rival>)
    ensures seats == chosen + Vacant(n)
  {
    seats := chosen;
    for i := 0 to n
      invariant seats == chosen + Vacant(i)
    {
      seats := seats + [None];
    }
  }

  // ----- what is chosen -----

  function Total(bands: Bands, band: U16): nat
    decreases band
  {
    Size(bands, band) + if band == 0 then 0 else Total(bands, band - 1)
  }

  ghost predicate Exists(bands: Bands, p: Place) { p.band in bands && p.index < Size(bands, p.band) }

  lemma DrawnFrom(band: U16, n: nat, k: nat, tape: Tape)
    ensures var d := Draw(Places(band, n), k, tape);
            && |d| == Min(k, n)
            && (forall p :: p in d ==> p.band == band && p.index < n)
            && (forall p :: multiset(d)[p] <= 1)
            && (n <= k ==> forall i :: 0 <= i < n ==> Place(band, i) in d)
  {
    var all, d := Places(band, n), Draw(Places(band, n), k, tape);
    DrawIsSelection(all, k, tape);
    forall p | p in d ensures p.band == band && p.index < n {
      assert p in multiset(all);
    }
    forall p ensures multiset(d)[p] <= 1 {
      OnePlace(band, n, p);
    }
    if n <= k {
      SameSize(multiset(d), multiset(all));
      forall i | 0 <= i < n ensures Place(band, i) in d {
        assert all[i] in multiset(all);
      }
    }
  }

  lemma {:induction false} OnePlace(band: U16, n: nat, p: Place)
    ensures multiset(Places(band, n))[p] <= 1
    ensures multiset(Places(band, n))[p] == 1 <==> p.band == band && p.index < n
  {
    if n > 0 {
      OnePlace(band, n - 1, p);
      assert Places(band, n) == Places(band, n - 1) + [Place(band, n - 1)];
    }
  }

  /** The picks of the bands from `band` downwards: as many as wanted or as there are, no place twice, and a band
      is only drawn from once all places of the bands above it are taken. */
  ghost predicate Fair(bands: Bands, band: U16, n: nat, picks: seq<Place>) {
    && |picks| == Min(n, Total(bands, band))
    && (forall p :: p in picks ==> Exists(bands, p) && p.band <= band)
    && (forall p :: multiset(picks)[p] <= 1)
    && (forall p, q :: p in picks && Exists(bands, q) && p.band < q.band <= band ==> q in picks)
  }

  lemma {:induction false} PicksAreFair(bands: Bands, band: U16, have: nat, tape: Tape)
    requires have < GHOST_COUNT
    ensures Fair(bands, band, GHOST_COUNT - have, Pick(bands, Gather(bands, band, have), GHOST_COUNT - have, tape))
    decreases band
  {
    hide Draw;
    hide Fair;
    hide Places;
    hide After;
    hide Pick;
    hide Gather;
    hide Total;
    var n, size := GHOST_COUNT - have, Size(bands, band);
    GatherMore(bands, band, have);
    if band !in bands {
      if band > 0 {
        PicksAreFair(bands, band - 1, have, tape);
        SkipIsFair(bands, band, n, Pick(bands, Gather(bands, band - 1, have), n, tape));
      } else {
        NothingIsFair(bands, n, tape);
      }
    } else if size >= n || band == 0 {
      assert [band][1..] == [];
      PickMore(bands, [band], n, tape);
      LastIsFair(bands, band, n, tape);
    } else {
      var below := Gather(bands, band - 1, have + size);
      assert ([band] + below)[1..] == below;
      PickMore(bands, [band] + below, n, tape);
      PicksAreFair(bands, band - 1, have + size, After(tape, n));
      JoinsFair(bands, band, n, tape, Pick(bands, below, n - size, After(tape, n)));
    }
  }

  lemma GatherMore(bands: Bands, band: U16, have: nat)
    ensures band !in bands && band == 0 ==> Gather(bands, band, have) == []
    ensures band !in bands && band > 0 ==> Gather(bands, band, have) == Gather(bands, band - 1, have)
    ensures band in bands && (have + Size(bands, band) >= GHOST_COUNT || band == 0) ==> Gather(bands, band, have) == [band]
    ensures band in bands && have + Size(bands, band) < GHOST_COUNT && band > 0 ==>
              Gather(bands, band, have) == [band] + Gather(bands, band - 1, have + Size(bands, band))
  {
    if band !in bands && band > 0 {
      assert Size(bands, band) == 0 && have + 0 == have;
      assert [] + Gather(bands, band - 1, have) == Gather(bands, band - 1, have);
    }
  }

  lemma NothingIsFair(bands: Bands, n: nat, tape: Tape)
    requires 0 !in bands
    ensures Fair(bands, 0, n, Pick(bands, [], n, tape))
  {
  }

  lemma SkipIsFair(bands: Bands, band: U16, n: nat, picks: seq<Place>)
    requires band > 0 && band !in bands && Fair(bands, band - 1, n, picks)
    ensures Fair(bands, band, n, picks)
  {
  }

  lemma LastIsFair(bands: Bands, band: U16, n: nat, tape: Tape)
    requires band in bands && (Size(bands, band) >= n || band == 0)
    ensures var drawn := Draw(Places(band, Size(bands, band)), n, tape);
            Fair(bands, band, n, drawn + Pick(bands, [], n - |drawn|, After(tape, n)))
  {
    hide Draw;
    hide Places;
    var drawn := Draw(Places(band, Size(bands, band)), n, tape);
    DrawnFrom(band, Size(bands, band), n, tape);
    assert drawn + [] == drawn;
  }

  lemma JoinsFair(bands: Bands, band: U16, n: nat, tape: Tape, rest: seq<Place>)
    requires band > 0 && band in bands && Size(bands, band) < n && Fair(bands, band - 1, n - Size(bands, band), rest)
    ensures Fair(bands, band, n, Draw(Places(band, Size(bands, band)), n, tape) + rest)
  {
    hide Draw;
    hide Places;
    var drawn := Draw(Places(band, Size(bands, band)), n, tape);
    DrawnFrom(band, Size(bands, band), n, tape);
    var picks := drawn + rest;
    forall p ensures multiset(picks)[p] <= 1 {
      assert multiset(picks)[p] == multiset(drawn)[p] + multiset(rest)[p];
      assert multiset(drawn)[p] > 0 ==> p in drawn;
      assert multiset(rest)[p] > 0 ==> p in rest;
    }
    forall p, q | p in picks && Exists(bands, q) && p.band < q.band <= band ensures q in picks {
      if q.band == band {
        assert Place(band, q.index) in drawn;
      } else {
        assert p in rest;
      }
    }
  }

  /** The stored ghost at a place, under the account listed there. */
  ghost predicate IsAt(bands: Bands, p: Place, rival: (Account, Ghost)) {
    && Exists(bands, p) && p.index in bands[p.band].ghosts
    && rival == (bands[p.band].info[p.index].account, bands[p.band].ghosts[p.index])
  }

  lemma {:induction false} FetchIsSafe(bands: Bands, places: seq<Place>)
    requires forall p :: p in places ==> Exists(bands, p)
    requires forall b :: b in bands ==> Sane(bands[b])
    ensures var r := Fetch(bands, places);
            r.Some? && |r.value| == |places|
            && forall i :: 0 <= i < |places| ==> IsAt(bands, places[i], r.value[i])
  {
    if places != [] {
      assert places[0] in places;
      FetchIsSafe(bands, places[1..]);
    }
  }

  ghost predicate Stored(bands: Bands, rival: (Account, Ghost)) { exists p :: IsAt(bands, p, rival) }

  function Count(rivals: seq<Rival>): nat { if rivals == [] then 0 else (if rivals[0].Some? then 1 else 0) + Count(rivals[1..]) }

  lemma {:induction false} CountOf(chosen: seq<(Account, Ghost)>, n: nat)
    ensures Count(Presented(chosen) + Vacant(n)) == |chosen|
  {
    var all := Presented(chosen) + Vacant(n);
    if chosen != [] {
      CountOf(chosen[1..], n);
      assert all[1..] == Presented(chosen[1..]) + Vacant(n);
    } else {
      assert all == Vacant(n);
      NobodyIn(n);
    }
  }

  lemma {:induction false} NobodyIn(n: nat)
    ensures Count(Vacant(n)) == 0 && |Vacant(n)| == n && forall i :: 0 <= i < n ==> Vacant(n)[i] == None
  {
    if n > 0 {
      NobodyIn(n - 1);
      CountAppend(Vacant(n - 1), None);
    }
  }

  lemma {:induction false} CountAppend(rivals: seq<Rival>, r: Rival)
    ensures Count(rivals + [r]) == Count(rivals) + if r.Some? then 1 else 0
  {
    if rivals == [] {
      assert rivals + [r] == [r];
    } else {
      assert (rivals + [r])[1..] == rivals[1..] + [r];
      CountAppend(rivals[1..], r);
    }
  }

  lemma FairIsLegal(bands: Bands, band: U16, picks: seq<Place>)
    requires Fair(bands, band, GHOST_COUNT, picks)
    ensures |picks| == Min(GHOST_COUNT, Total(bands, band)) && forall p :: p in picks ==> Exists(bands, p)
  {
  }

  /** From sane bands the choice never misses a ghost: three seats, filled by as many stored ghosts as there are up to
      three, picked fairly from the player's band downwards. */
  lemma ChoiceIsFair(bands: Bands, ep: U16, tape: Tape, order: Tape)
    requires forall b :: b in bands ==> Sane(bands[b])
    ensures Fair(bands, EpBand(ep), GHOST_COUNT, PickAll(bands, ep, tape))
    ensures var r := Choose(bands, ep, tape, order);
            && r.Some? && |r.value| == GHOST_COUNT
            && Count(r.value) == Min(GHOST_COUNT, Total(bands, EpBand(ep)))
            && (forall i :: 0 <= i < GHOST_COUNT && r.value[i].Some? ==> Stored(bands, r.value[i].value))
  {
    hide Fair;
    hide Pick;
    hide Gather;
    hide Count;
    hide Draw;
    hide Sane;
    hide Total;
    hide IsAt;
    PicksAreFair(bands, EpBand(ep), 0, tape);
    FairIsLegal(bands, EpBand(ep), PickAll(bands, ep, tape));
    var places := PickAll(bands, ep, tape);
    FetchIsSafe(bands, places);
    var rivals := Fetch(bands, places).value;
    AllStored(bands, places, rivals, order);
    CountOf(Shuffle(rivals, order), GHOST_COUNT - |rivals|);
    NobodyIn(GHOST_COUNT - |rivals|);
  }

  lemma AllStored(bands: Bands, places: seq<Place>, rivals: seq<(Account, Ghost)>, order: Tape)
    requires |rivals| == |places| && forall i :: 0 <= i < |places| ==> IsAt(bands, places[i], rivals[i])
    ensures forall i :: 0 <= i < |rivals| ==> Stored(bands, Shuffle(rivals, order)[i])
  {
    hide IsAt;
    hide Draw;
    var shuffled := Shuffle(rivals, order);
    ShuffleIsPermutation(rivals, order);
    forall i | 0 <= i < |rivals| ensures Stored(bands, shuffled[i]) {
      assert shuffled[i] in multiset(shuffled) && shuffled[i] in multiset(rivals);
      var k :| 0 <= k < |rivals| && rivals[k] == shuffled[i];
      assert IsAt(bands, places[k], shuffled[i]);
    }
  }
}
