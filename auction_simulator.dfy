// A model of the observer-pattern auction engine: an Auctioneer that keeps the
// highest bid and a registry of bidder callbacks, Bidders that answer a
// notification by computing a candidate bid, and an Auction driver that makes
// one pass over its list of bidders.
//
// Amounts are `real` (the source uses floats; rounding is not modelled).
// Bidders are compared by object identity, as the source does.
// The random number generator is an injected oracle, `Random`.

module Simulator {

  // ---------------------------------------------------------------------------
  // The draw oracle
  // ---------------------------------------------------------------------------

  /** Stands for the module-level random generator: the n-th number drawn
      is `source(n)`, and `calls` counts the numbers drawn so far. */
  class Random {
    const source: nat -> real
    var calls: nat

    constructor (source: nat -> real)
      ensures this.source == source && calls == 0
    {
      this.source := source;
      calls := 0;
    }

    /** Draws the next number of the stream. */
    method Next() returns (x: real)
      modifies this
      ensures x == source(old(calls)) && calls == old(calls) + 1
    {
      x := source(calls);
      calls := calls + 1;
    }
  }

  // ---------------------------------------------------------------------------
  // Value view of the mutable state, and the specification of one call
  // ---------------------------------------------------------------------------

  /** The fields of a bidder that change: its budget and its last submitted bid. */
  datatype Purse = Purse(budget: real, lastBid: real)

  /** The auctioneer's highest bid and its holder (`null` when nobody has bid). */
  datatype Floor = Floor(highestBid: real, leader: Bidder?)

  /** The outcome of one bidder call: the bidder's new purse, the auctioneer's
      new floor, and how many numbers have been drawn. */
  datatype Turn = Turn(purse: Purse, floor: Floor, pos: nat)

  /** The candidate bid of a bidder facing highest bid `current`. */
  function Candidate(b: Bidder, current: real): real
  {
    b.bidIncreasePerc * current
  }

  /** The first two tests of a bidder's decision: it does not lead, and its
      candidate fits in the budget that has already been reduced by it.
      Only when both hold is a random number drawn. */
  predicate Eligible(b: Bidder, p: Purse, f: Floor)
  {
    f.leader != b && Candidate(b, f.highestBid) <= p.budget - Candidate(b, f.highestBid)
  }

  /** Whether the bidder submits its candidate, the draw being `source(pos)`. */
  predicate Submits(b: Bidder, p: Purse, f: Floor, source: nat -> real, pos: nat)
  {
    Eligible(b, p, f) && source(pos) < b.bidProbability
  }

  /** One call of bidder `b` on an auctioneer whose registry is empty, so that
      an accepted bid notifies nobody. */
  function Respond(b: Bidder, p: Purse, f: Floor, source: nat -> real, pos: nat): (t: Turn)
    // the candidate is spent whether or not the bidder then bids
    ensures t.purse.budget == p.budget - Candidate(b, f.highestBid)
    // the recorded bid changes only to the candidate, and only on submission
    ensures t.purse.lastBid == if Submits(b, p, f, source, pos) then Candidate(b, f.highestBid) else p.lastBid
    // one number is drawn exactly when the first two tests pass
    ensures t.pos == if Eligible(b, p, f) then pos + 1 else pos
    // the auctioneer changes only by accepting a strictly higher bid from `b`
    ensures t.floor == f || (t.floor == Floor(Candidate(b, f.highestBid), b) && f.highestBid < t.floor.highestBid)
    ensures t.floor != f <==> Submits(b, p, f, source, pos) && f.highestBid < Candidate(b, f.highestBid)
    // the leader never bids against itself
    ensures f.leader == b ==> t.floor == f && t.purse.lastBid == p.lastBid && t.pos == pos
  {
    var myBid := Candidate(b, f.highestBid);
    var submit := Submits(b, p, f, source, pos);
    Turn(Purse(p.budget - myBid, if submit then myBid else p.lastBid),
         if submit && f.highestBid < myBid then Floor(myBid, b) else f,
         if Eligible(b, p, f) then pos + 1 else pos)
  }

  // ---------------------------------------------------------------------------
  // Bidder
  // ---------------------------------------------------------------------------

  class Bidder {
    const name: string
    const bidProbability: real
    const bidIncreasePerc: real
    var budget: real
    /** This bidder's last submitted amount (0 until it first submits). */
    var highestBid: real

    constructor (name: string, budget: real := 100.0, bidProbability: real := 0.35, bidIncreasePerc: real := 1.1)
      ensures this.name == name && this.budget == budget
      ensures this.bidProbability == bidProbability && this.bidIncreasePerc == bidIncreasePerc
      ensures highestBid == 0.0
    {
      this.name := name;
      this.bidProbability := bidProbability;
      this.budget := budget;
      this.bidIncreasePerc := bidIncreasePerc;
      highestBid := 0.0;
    }

    ghost function PurseNow(): Purse
      reads this
    {
      Purse(budget, highestBid)
    }

    /** The bidder's answer to a notification from `a`. When it submits, the
        bid goes to `a.AcceptBid`, which may notify `a`'s registered bidders in
        turn; `fuel` bounds the depth of that cascade. */
    method Call(a: Auctioneer, rng: Random, fuel: nat)
      modifies this, a, rng, a.bidders
      decreases fuel, 1
      ensures a.bidders == old(a.bidders)
      ensures a.highestBid >= old(a.highestBid)
      ensures a.highestBid == old(a.highestBid) ==> a.highestBidder == old(a.highestBidder)
      ensures rng.calls >= old(rng.calls)
      // when the cascade cannot reach this bidder again, its own fields are those of one call
      ensures this !in old(a.bidders) ==>
        PurseNow() == Respond(this, old(PurseNow()), old(a.FloorNow()), rng.source, old(rng.calls)).purse
      // when no bid is accepted there is no cascade: the call is one `Respond`
      // and no other registered bidder is touched
      ensures a.highestBid == old(a.highestBid) ==>
        PurseNow() == Respond(this, old(PurseNow()), old(a.FloorNow()), rng.source, old(rng.calls)).purse
        && rng.calls == Respond(this, old(PurseNow()), old(a.FloorNow()), rng.source, old(rng.calls)).pos
        && Respond(this, old(PurseNow()), old(a.FloorNow()), rng.source, old(rng.calls)).floor == old(a.FloorNow())
        && forall c :: c in old(a.bidders) && c != this ==> unchanged(c)
      // with nobody registered, the whole call is one `Respond`
      ensures old(a.bidders) == [] ==>
        Turn(PurseNow(), a.FloorNow(), rng.calls)
        == Respond(this, old(PurseNow()), old(a.FloorNow()), rng.source, old(rng.calls))
    {
      ghost var p0, f0, pos0 := PurseNow(), a.FloorNow(), rng.calls;
      var myBid := bidIncreasePerc * a.highestBid;
      budget := budget - myBid;
      var submit := false;
      if a.highestBidder != this && myBid <= budget {
        var draw := rng.Next();
        submit := draw < bidProbability;
      }
      assert submit == Submits(this, p0, f0, rng.source, pos0);
      if submit {
        highestBid := myBid;
        a.AcceptBid(myBid, this, rng, fuel);
      }
    }
  }

  // ---------------------------------------------------------------------------
  // Auctioneer
  // ---------------------------------------------------------------------------

  class Auctioneer {
    /** The registered bidder callbacks, in registration order. */
    var bidders: seq<Bidder>
    var highestBid: real
    var highestBidder: Bidder?

    constructor ()
      ensures bidders == [] && highestBid == 0.0 && highestBidder == null
    {
      bidders := [];
      highestBid := 0.0;
      highestBidder := null;
    }

    ghost function FloorNow(): Floor
      reads this
    {
      Floor(highestBid, highestBidder)
    }

    /** The `highest_bid` property setter: no check, no notification. */
    method SetHighestBid(amt: real)
      modifies this`highestBid
      ensures highestBid == amt
      ensures bidders == old(bidders) && highestBidder == old(highestBidder)
    {
      highestBid := amt;
    }

    /** Appends a bidder; duplicates are allowed. */
    method RegisterBidder(bidder: Bidder)
      modifies this`bidders
      ensures bidders == old(bidders) + [bidder]
      ensures highestBid == old(highestBid) && highestBidder == old(highestBidder)
    {
      bidders := bidders + [bidder];
    }

    /** Empties the registry and zeroes the highest bid; the leader stays. */
    method ResetAuctioneer()
      modifies this`bidders, this`highestBid
      ensures bidders == [] && highestBid == 0.0
      ensures highestBidder == old(highestBidder)
    {
      bidders := [];
      highestBid := 0.0;
    }

    /** Calls every registered bidder, in order, that is not the leader at the
        moment it is reached. */
    method NotifyBidders(rng: Random, fuel: nat)
      modifies this, rng, bidders
      decreases fuel, 3
      ensures bidders == old(bidders)
      ensures highestBid >= old(highestBid)
      ensures highestBid == old(highestBid) ==> highestBidder == old(highestBidder)
      ensures rng.calls >= old(rng.calls)
      // a pass in which every entry is the current leader calls nobody
      ensures (forall o :: o in bidders ==> o == old(highestBidder)) ==>
        unchanged(this, rng) && unchanged(bidders)
      // a pass that accepts no bid never calls the leader
      ensures highestBid == old(highestBid) && old(highestBidder) != null ==>
        unchanged(old(highestBidder))
      // a pass that accepts no bid calls, in list order, exactly the entries
      // that are not the leader, each answering as one `Respond`
      ensures highestBid == old(highestBid) ==>
        Round(Purses(bidders), FloorNow(), rng.calls)
        == Run(Skip(bidders, old(highestBidder)), Round(old(Purses(bidders)), old(FloorNow()), old(rng.calls)), rng.source)
    {
      ghost var start := Round(Purses(bidders), FloorNow(), rng.calls);
      // no entry reached so far was called
      ghost var quiet := true;
      for i := 0 to |bidders|
        invariant bidders == old(bidders)
        invariant highestBid >= old(highestBid)
        invariant highestBid == old(highestBid) ==> highestBidder == old(highestBidder)
        invariant rng.calls >= old(rng.calls)
        invariant quiet ==> unchanged(this, rng) && unchanged(bidders)
        invariant (forall k :: 0 <= k < i ==> bidders[k] == old(highestBidder)) ==> quiet
        invariant highestBid == old(highestBid) && old(highestBidder) != null ==>
          unchanged(old(highestBidder))
        invariant highestBid == old(highestBid) ==>
          Round(Purses(bidders), FloorNow(), rng.calls) == Run(Skip(bidders[..i], old(highestBidder)), start, rng.source)
      {
        assert bidders[i] in bidders;
        RunSkipSnoc(bidders, i, old(highestBidder), start, rng.source);
        quiet := quiet && bidders[i] == old(highestBidder);
        NotifyEntry(bidders[i], rng, fuel);
      }
      assert bidders[..|bidders|] == bidders;
      if forall o :: o in bidders ==> o == old(highestBidder) {
        assert forall k :: 0 <= k < |bidders| ==> bidders[k] in bidders;
      }
    }

    /** One iteration of the notification loop: calls `o` unless it leads. */
    method NotifyEntry(o: Bidder, rng: Random, fuel: nat)
      requires o in bidders
      modifies this, rng, bidders
      decreases fuel, 2
      ensures bidders == old(bidders)
      ensures highestBid >= old(highestBid)
      ensures highestBid == old(highestBid) ==> highestBidder == old(highestBidder)
      ensures rng.calls >= old(rng.calls)
      // the leader is skipped
      ensures o == old(highestBidder) ==> unchanged(this, rng) && unchanged(bidders)
      ensures highestBid == old(highestBid) && old(highestBidder) != null ==>
        unchanged(old(highestBidder))
      // when no bid is accepted, a non-leader answers as one `Respond`
      ensures highestBid == old(highestBid) ==>
        Round(Purses(bidders), FloorNow(), rng.calls)
        == if o == old(highestBidder) then Round(old(Purses(bidders)), old(FloorNow()), old(rng.calls))
           else Step(o, Round(old(Purses(bidders)), old(FloorNow()), old(rng.calls)), rng.source)
    {
      if o != highestBidder {
        ghost var before := Round(Purses(bidders), FloorNow(), rng.calls);
        ghost var t := Respond(o, o.PurseNow(), FloorNow(), rng.source, rng.calls);
        assert before.purses[o] == o.PurseNow();
        label BeforeCall:
        o.Call(this, rng, fuel);
        if highestBid == old(highestBid) && old(highestBidder) != null && old(highestBidder) in bidders {
          assert unchanged@BeforeCall(old(highestBidder));
        }
        if highestBid == old(highestBid) {
          assert Purses(bidders) == before.purses[o := t.purse] by {
            assert o.PurseNow() == t.purse;
          }
          assert FloorNow() == t.floor && rng.calls == t.pos;
          assert Round(Purses(bidders), FloorNow(), rng.calls) == Step(o, before, rng.source);
        }
      }
    }

    /** Takes `bid` only when it strictly exceeds the highest bid, then
        notifies the registered bidders. A cascade deeper than `fuel` passes
        is cut: the last accepted bid is recorded but nobody is notified. */
    method AcceptBid(bid: real, bidder: Bidder, rng: Random, fuel: nat)
      modifies this, rng, bidders
      decreases fuel, 0
      ensures bidders == old(bidders)
      // a bid that is not higher is a silent no-op
      ensures !(old(highestBid) < bid) ==> unchanged(this, rng) && unchanged(bidders)
      // an accepted bid stands unless the cascade outbids it
      ensures old(highestBid) < bid ==>
        highestBid >= bid && (highestBid == bid ==> highestBidder == bidder)
      ensures old(highestBid) < bid && old(bidders) == [] ==>
        highestBid == bid && highestBidder == bidder && unchanged(rng)
      ensures highestBid >= old(highestBid)
      // the state changes only together with the highest bid
      ensures highestBid == old(highestBid) ==> unchanged(this, rng) && unchanged(bidders)
      ensures rng.calls >= old(rng.calls)
    {
      if highestBid < bid {
        highestBid := bid;
        highestBidder := bidder;
        if fuel > 0 {
          NotifyBidders(rng, fuel - 1);
        }
      }
    }
  }

  // ---------------------------------------------------------------------------
  // One pass of the driver, as a function on values
  // ---------------------------------------------------------------------------

  /** Everything a pass over the bidder list changes: every listed bidder's
      purse, the auctioneer's floor, and the position in the random stream. */
  datatype Round = Round(purses: map<Bidder, Purse>, floor: Floor, pos: nat)

  /** Bidder `b` answers once, the registry being empty. */
  function Step(b: Bidder, r: Round, source: nat -> real): (e: Round)
    requires b in r.purses
    ensures e.purses.Keys == r.purses.Keys
  {
    var t := Respond(b, r.purses[b], r.floor, source, r.pos);
    Round(r.purses[b := t.purse], t.floor, t.pos)
  }

  /** Every bidder of `bs` answers once, in list order. */
  function Run(bs: seq<Bidder>, r: Round, source: nat -> real): (e: Round)
    requires forall b :: b in bs ==> b in r.purses
    ensures e.purses.Keys == r.purses.Keys
    decreases |bs|
  {
    if bs == [] then r
    else Step(bs[|bs| - 1], Run(bs[..|bs| - 1], r, source), source)
  }

  /** The entries of `bs` other than `leader`, in order: the bidders a
      notification pass calls while `leader` keeps the lead. */
  function Skip(bs: seq<Bidder>, leader: Bidder?): (r: seq<Bidder>)
    ensures forall i :: 0 <= i < |r| ==> r[i] in bs && r[i] != leader
    ensures forall i :: 0 <= i < |bs| && bs[i] != leader ==> bs[i] in r
    ensures |r| <= |bs|
    decreases |bs|
  {
    if bs == [] then []
    else
      var last := bs[|bs| - 1];
      Skip(bs[..|bs| - 1], leader) + (if last == leader then [] else [last])
  }

  /** Appending an entry appends it to the skipped list unless it is the leader. */
  lemma SkipSnoc(bs: seq<Bidder>, b: Bidder, leader: Bidder?)
    ensures Skip(bs + [b], leader) == Skip(bs, leader) + (if b == leader then [] else [b])
  {
  }

  /** One more entry of the registry: a pass calls it unless it is the leader. */
  lemma RunSkipSnoc(bs: seq<Bidder>, i: nat, leader: Bidder?, start: Round, source: nat -> real)
    requires i < |bs| && forall b :: b in bs ==> b in start.purses
    ensures bs[i] != leader ==>
      Run(Skip(bs[..i + 1], leader), start, source) == Step(bs[i], Run(Skip(bs[..i], leader), start, source), source)
    ensures bs[i] == leader ==>
      Run(Skip(bs[..i + 1], leader), start, source) == Run(Skip(bs[..i], leader), start, source)
  {
    assert bs[..i + 1] == bs[..i] + [bs[i]];
    SkipSnoc(bs[..i], bs[i], leader);
    var sk := Skip(bs[..i], leader);
    if bs[i] == leader {
      assert Skip(bs[..i + 1], leader) == sk + [] == sk;
    } else {
      var sk' := sk + [bs[i]];
      assert Skip(bs[..i + 1], leader) == sk';
      assert sk'[..|sk|] == sk;
      assert sk'[|sk'| - 1] == bs[i];
    }
  }

  lemma {:induction false} RunMonotone(bs: seq<Bidder>, r: Round, source: nat -> real)
    requires forall b :: b in bs ==> b in r.purses
    ensures Run(bs, r, source).floor.highestBid >= r.floor.highestBid
    ensures Run(bs, r, source).floor.highestBid == r.floor.highestBid ==> Run(bs, r, source).floor == r.floor
  {
    if bs != [] {
      RunMonotone(bs[..|bs| - 1], r, source);
    }
  }

  lemma {:induction false} RunWinnerListed(bs: seq<Bidder>, r: Round, source: nat -> real)
    requires forall b :: b in bs ==> b in r.purses
    ensures Run(bs, r, source).floor.leader == r.floor.leader || Run(bs, r, source).floor.leader in bs
  {
    if bs != [] {
      RunWinnerListed(bs[..|bs| - 1], r, source);
    }
  }

  /** There is no winner exactly when there was no leader before the pass
      and no bid was accepted during it. */
  lemma {:induction false} RunNoWinner(bs: seq<Bidder>, r: Round, source: nat -> real)
    requires forall b :: b in bs ==> b in r.purses
    ensures Run(bs, r, source).floor.leader == null <==> r.floor.leader == null && Run(bs, r, source).floor == r.floor
  {
    if bs != [] {
      var m := Run(bs[..|bs| - 1], r, source);
      RunNoWinner(bs[..|bs| - 1], r, source);
      RunMonotone(bs[..|bs| - 1], r, source);
      RunMonotone(bs, r, source);
    }
  }

  /** A bidder not in the list keeps its budget and its recorded bid. */
  lemma {:induction false} RunUntouched(bs: seq<Bidder>, r: Round, source: nat -> real, b: Bidder)
    requires forall c :: c in bs ==> c in r.purses
    requires b in r.purses && b !in bs
    ensures Run(bs, r, source).purses[b] == r.purses[b]
  {
    if bs != [] {
      RunUntouched(bs[..|bs| - 1], r, source, b);
    }
  }

  /** A winner that the pass produced has the winning amount as its recorded bid. */
  lemma {:induction false} RunWinnerBid(bs: seq<Bidder>, r: Round, source: nat -> real)
    requires forall b :: b in bs ==> b in r.purses
    ensures var e := Run(bs, r, source);
      e.floor != r.floor ==>
        e.floor.leader in e.purses && e.purses[e.floor.leader].lastBid == e.floor.highestBid
  {
    if bs != [] {
      var m := Run(bs[..|bs| - 1], r, source);
      RunWinnerBid(bs[..|bs| - 1], r, source);
    }
  }

  /** With a non-negative opening price and non-negative increase factors,
      no budget grows during a pass. */
  lemma {:induction false} RunBudgetsFall(bs: seq<Bidder>, r: Round, source: nat -> real)
    requires forall b :: b in bs ==> b in r.purses
    requires r.floor.highestBid >= 0.0
    requires forall b :: b in bs ==> b.bidIncreasePerc >= 0.0
    ensures forall b :: b in r.purses ==> Run(bs, r, source).purses[b].budget <= r.purses[b].budget
  {
    if bs != [] {
      var m := Run(bs[..|bs| - 1], r, source);
      RunBudgetsFall(bs[..|bs| - 1], r, source);
      RunMonotone(bs[..|bs| - 1], r, source);
      var c := bs[|bs| - 1];
      assert Candidate(c, m.floor.highestBid) >= 0.0 by {
        assert c in bs;
      }
    }
  }

  /** A bidder whose increase factor is at most 1 can record a bid that the
      auctioneer then refuses, so the summary may list an amount that never
      led the auction. */
  lemma RecordedBidMayBeRefused(b: Bidder, p: Purse, f: Floor, source: nat -> real, pos: nat)
    requires 0.0 < b.bidIncreasePerc <= 1.0 && f.highestBid > 0.0
    requires Submits(b, p, f, source, pos)
    ensures var t := Respond(b, p, f, source, pos);
      t.purse.lastBid > 0.0 && t.floor == f
  {
    assert Candidate(b, f.highestBid) <= f.highestBid;
    assert Candidate(b, f.highestBid) > 0.0;
  }

  // ---------------------------------------------------------------------------
  // The summary
  // ---------------------------------------------------------------------------

  /** Some bidder after position `i` has the same name and a positive bid. */
  predicate NameShownLater(bs: seq<Bidder>, i: nat)
    requires i < |bs|
    reads bs
  {
    exists j :: i < j < |bs| && bs[j].highestBid > 0.0 && bs[j].name == bs[i].name
  }

  /** Maps each name to its bidder's recorded bid, for the bidders whose bid
      is positive; a later bidder with the same name overwrites an earlier one. */
  function Summary(bs: seq<Bidder>): (r: map<string, real>)
    reads bs
    ensures forall k :: k in r <==> exists i :: 0 <= i < |bs| && bs[i].highestBid > 0.0 && bs[i].name == k
    decreases |bs|
  {
    if bs == [] then map[]
    else
      var m := Summary(bs[..|bs| - 1]);
      var b := bs[|bs| - 1];
      assert forall i :: 0 <= i < |bs| - 1 ==> bs[..|bs| - 1][i] == bs[i];
      if b.highestBid > 0.0 then m[b.name := b.highestBid] else m
  }

  /** The amount shown for a name is that of the last listed bidder with
      that name and a positive bid. */
  lemma {:induction false} SummaryLastWins(bs: seq<Bidder>, i: nat)
    requires i < |bs| && bs[i].highestBid > 0.0 && !NameShownLater(bs, i)
    ensures bs[i].name in Summary(bs) && Summary(bs)[bs[i].name] == bs[i].highestBid
    decreases |bs|
  {
    var n := |bs| - 1;
    var front := bs[..n];
    var last := bs[n];
    assert Summary(bs) == if last.highestBid > 0.0 then Summary(front)[last.name := last.highestBid] else Summary(front);
    if i < n {
      assert front[i] == bs[i];
      assert !NameShownLater(front, i) by {
        forall j | i < j < n
          ensures !(front[j].highestBid > 0.0 && front[j].name == front[i].name)
        {
          assert front[j] == bs[j];
        }
      }
      SummaryLastWins(front, i);
      assert !(last.highestBid > 0.0 && last.name == bs[i].name);
    }
  }

  // ---------------------------------------------------------------------------
  // Auction driver
  // ---------------------------------------------------------------------------

  /** The purses of the bidders in `bs`. */
  ghost function Purses(bs: seq<Bidder>): (m: map<Bidder, Purse>)
    reads bs
    ensures m.Keys == set b | b in bs
  {
    map b | b in bs :: b.PurseNow()
  }

  class Auction {
    const bidderList: seq<Bidder>
    const auctioneer: Auctioneer

    /** The driver never registers a bidder with its auctioneer. */
    ghost predicate Valid()
      reads this, auctioneer
    {
      auctioneer.bidders == []
    }

    constructor (bidders: seq<Bidder>)
      ensures Valid() && bidderList == bidders && fresh(auctioneer)
      ensures auctioneer.highestBid == 0.0 && auctioneer.highestBidder == null
    {
      bidderList := bidders;
      auctioneer := new Auctioneer();
    }

    /** Seeds the highest bid with `startPrice`, lets every listed bidder
        answer once in order, and reports the winner (`null` for none) and the
        summary of positive recorded bids. `item` is only announced. */
    method SimulateAuction(item: string, startPrice: real, rng: Random)
      returns (winner: Bidder?, summary: map<string, real>)
      requires Valid()
      modifies auctioneer, rng, bidderList
      ensures Valid()
      ensures Round(Purses(bidderList), auctioneer.FloorNow(), rng.calls)
        == Run(bidderList, Round(old(Purses(bidderList)), Floor(startPrice, old(auctioneer.highestBidder)), old(rng.calls)), rng.source)
      ensures winner == auctioneer.highestBidder
      ensures summary == Summary(bidderList)
    {
      ghost var start := Round(Purses(bidderList), Floor(startPrice, auctioneer.highestBidder), rng.calls);
      auctioneer.SetHighestBid(startPrice);
      for i := 0 to |bidderList|
        invariant Valid()
        invariant Round(Purses(bidderList), auctioneer.FloorNow(), rng.calls) == Run(bidderList[..i], start, rng.source)
      {
        var bidPlacer := bidderList[i];
        ghost var before := Round(Purses(bidderList), auctioneer.FloorNow(), rng.calls);
        ghost var t := Respond(bidPlacer, bidPlacer.PurseNow(), auctioneer.FloorNow(), rng.source, rng.calls);
        assert before.purses[bidPlacer] == bidPlacer.PurseNow();
        // the registry is empty, so the fuel is never consulted
        bidPlacer.Call(auctioneer, rng, 0);
        assert Turn(bidPlacer.PurseNow(), auctioneer.FloorNow(), rng.calls) == t;
        assert Round(Purses(bidderList), auctioneer.FloorNow(), rng.calls) == Step(bidPlacer, before, rng.source);
        assert bidderList[..i + 1][..i] == bidderList[..i];
      }
      assert bidderList[..|bidderList|] == bidderList;
      winner := auctioneer.highestBidder;
      summary := Summary(bidderList);
    }
  }

  // ---------------------------------------------------------------------------
  // End-to-end runs of the driver
  // ---------------------------------------------------------------------------

  /** One bidder (budget 1000, probability 1, factor 1.5) and an opening price
      of 100: it spends 150, bids 150 and wins. */
  method SingleBidderRun() returns (winner: string, budget: real, summary: map<string, real>)
    ensures winner == "A" && budget == 850.0 && summary == map["A" := 150.0]
  {
    var a := new Bidder("A", 1000.0, 1.0, 1.5);
    var rng := new Random(n => 0.0);
    var auction := new Auction([a]);
    ghost var start := Round(Purses([a]), Floor(100.0, null), 0);
    assert start.purses == map[a := Purse(1000.0, 0.0)];
    assert [a][..0] == [];
    var w;
    w, summary := auction.SimulateAuction("lamp", 100.0, rng);
    assert Purses([a])[a] == Purse(850.0, 150.0);
    winner := if w == null then "" else w.name;
    budget := a.budget;
  }

  /** Bidder A (budget 50, factor 1.2) cannot afford 120 and is left with a
      budget of -70; bidder B (budget 1000, factor 1.1) bids 110 and wins. */
  method TwoBidderRun() returns (winner: string, budgetA: real, summary: map<string, real>)
    ensures winner == "B" && budgetA == -70.0 && summary == map["B" := 110.0]
  {
    var a := new Bidder("A", 50.0, 1.0, 1.2);
    var b := new Bidder("B", 1000.0, 1.0, 1.1);
    var rng := new Random(n => 0.0);
    var auction := new Auction([a, b]);
    ghost var start := Round(Purses([a, b]), Floor(100.0, null), 0);
    assert start.purses == map[a := Purse(50.0, 0.0), b := Purse(1000.0, 0.0)];
    assert [a, b][..1] == [a] && [a][..0] == [];
    ghost var afterA := Step(a, start, rng.source);
    assert afterA == Round(start.purses[a := Purse(-70.0, 0.0)], start.floor, 0);
    assert Run([a], start, rng.source) == afterA;
    assert Run([a, b], start, rng.source) == Step(b, afterA, rng.source);
    var w;
    w, summary := auction.SimulateAuction("vase", 100.0, rng);
    assert Purses([a, b])[a] == Purse(-70.0, 0.0);
    assert Purses([a, b])[b] == Purse(890.0, 110.0);
    winner := if w == null then "" else w.name;
    budgetA := a.budget;
  }

  /** With no bidders there is no winner and the summary is empty. */
  method NoBidderRun() returns (hasWinner: bool, summary: map<string, real>)
    ensures !hasWinner && summary == map[]
  {
    var rng := new Random(n => 0.0);
    var auction := new Auction([]);
    var w;
    w, summary := auction.SimulateAuction("clock", 100.0, rng);
    hasWinner := w != null;
  }
}
