/** Placement of a compute job: accepted offers are ranked and tried in rank order until one takes the job. */
module Scheduler {
  import opened ByteOrder
  import opened Common

  datatype Offer = Offer(accepted: bool, nodeId: Text, address: Option<Text>, delaySeconds: nat,
                         localInputBytes: nat, parallelism: nat)

  // ---- Ranking ----

  /** More local bytes, then less delay, then more parallelism, then the smaller node id. */
  predicate Before(a: Offer, b: Offer) {
    if a.localInputBytes != b.localInputBytes then a.localInputBytes > b.localInputBytes
    else if a.delaySeconds != b.delaySeconds then a.delaySeconds < b.delaySeconds
    else if a.parallelism != b.parallelism then a.parallelism > b.parallelism
    else Less(a.nodeId, b.nodeId)
  }

  /** "Not after" is transitive, so ranking is a weak order. */
  lemma NotAfterTransitive(a: Offer, b: Offer, c: Offer)
    requires !Before(b, a) && !Before(c, b)
    ensures !Before(c, a)
  {
    LessTotal(a.nodeId, b.nodeId);
    LessTotal(b.nodeId, c.nodeId);
    LessIrreflexive(a.nodeId);
    if Less(a.nodeId, b.nodeId) && Less(b.nodeId, c.nodeId) {
      LessTransitive(a.nodeId, b.nodeId, c.nodeId);
    }
    if Less(a.nodeId, c.nodeId) && Less(c.nodeId, a.nodeId) {
      LessTransitive(a.nodeId, c.nodeId, a.nodeId);
    }
  }

  lemma BeforeAsymmetric(a: Offer, b: Offer)
    requires Before(a, b)
    ensures !Before(b, a)
  {
    LessIrreflexive(a.nodeId);
    if Less(a.nodeId, b.nodeId) && Less(b.nodeId, a.nodeId) {
      LessTransitive(a.nodeId, b.nodeId, a.nodeId);
    }
  }

  predicate Ranked(s: seq<Offer>) {
    forall i, j :: 0 <= i < j < |s| ==> !Before(s[j], s[i])
  }

  function Insert(x: Offer, s: seq<Offer>): seq<Offer> {
    if s == [] || !Before(s[0], x) then [x] + s else [s[0]] + Insert(x, s[1..])
  }

  /** A stable sort by rank. */
  function Rank(s: seq<Offer>): seq<Offer> {
    if s == [] then [] else Insert(s[0], Rank(s[1..]))
  }

  lemma {:induction false} InsertHolds(x: Offer, s: seq<Offer>)
    ensures multiset(Insert(x, s)) == multiset(s) + multiset{x}
  {
    if s != [] && Before(s[0], x) {
      InsertHolds(x, s[1..]);
      assert s == [s[0]] + s[1..];
    }
  }

  lemma {:induction false} InsertRanks(x: Offer, s: seq<Offer>)
    requires Ranked(s)
    ensures Ranked(Insert(x, s))
  {
    if s == [] {
    } else if !Before(s[0], x) {
      forall j | 0 <= j < |s|
        ensures !Before(s[j], x)
      {
        if j > 0 {
          NotAfterTransitive(x, s[0], s[j]);
        }
      }
    } else {
      var rest := Insert(x, s[1..]);
      InsertRanks(x, s[1..]);
      InsertHolds(x, s[1..]);
      BeforeAsymmetric(s[0], x);
      forall j | 0 <= j < |rest|
        ensures !Before(rest[j], s[0])
      {
        assert rest[j] in multiset(rest);
        assert rest[j] == x || rest[j] in s[1..];
      }
    }
  }

  /** The ranking is sorted and is a permutation of the offers. */
  lemma {:induction false} RankSorts(s: seq<Offer>)
    ensures Ranked(Rank(s)) && multiset(Rank(s)) == multiset(s)
  {
    if s != [] {
      RankSorts(s[1..]);
      InsertRanks(s[0], Rank(s[1..]));
      InsertHolds(s[0], Rank(s[1..]));
      assert s == [s[0]] + s[1..];
    }
  }

  /** The offers tied with `key`, in order. */
  function Tied(key: Offer, s: seq<Offer>): seq<Offer> {
    if s == [] then []
    else (if !Before(s[0], key) && !Before(key, s[0]) then [s[0]] else []) + Tied(key, s[1..])
  }

  lemma {:induction false} InsertStable(key: Offer, x: Offer, s: seq<Offer>)
    requires Ranked(s)
    ensures Tied(key, Insert(x, s)) == Tied(key, [x] + s)
  {
    assert ([x] + s)[1..] == s;
    if s != [] && Before(s[0], x) {
      InsertStable(key, x, s[1..]);
      assert ([x] + s[1..])[1..] == s[1..];
      var inserted := [s[0]] + Insert(x, s[1..]);
      assert inserted[1..] == Insert(x, s[1..]);
      if !Before(x, key) && !Before(key, x) && !Before(s[0], key) && !Before(key, s[0]) {
        NotAfterTransitive(x, key, s[0]);
      }
    }
  }

  /** Offers that tie in rank are tried in the order they were collected. */
  lemma {:induction false} RankStable(key: Offer, s: seq<Offer>)
    ensures Tied(key, Rank(s)) == Tied(key, s)
  {
    if s != [] {
      RankStable(key, s[1..]);
      RankSorts(s[1..]);
      InsertStable(key, s[0], Rank(s[1..]));
      assert ([s[0]] + Rank(s[1..]))[1..] == Rank(s[1..]);
    }
  }

  // ---- Trying the offers ----

  /** What became of asking a remote node: the attempt failed (bad address or refused), the whole submission has
      to end with an error (garbled reply, record not persisted), or the node took the job. */
  datatype Remote = Fails | Aborts | Takes

  datatype Attempt = Attempt(nodeId: Text, address: Option<Text>, accepted: bool)

  datatype Outcome = Placed(offer: Offer, attempts: seq<Attempt>) | NoOffers | AllFailed | Aborted

  /** The offer at rank `i` did not get the job and does not stop the search. */
  predicate Passed(local: Text, ranked: seq<Offer>, remote: nat -> Remote, i: nat)
    requires i < |ranked|
  {
    ranked[i].nodeId != local && (ranked[i].address.None? || remote(i).Fails?)
  }

  /** The recorded failures among the first `n` ranks: offers without an address leave no record. */
  function Failures(ranked: seq<Offer>, n: nat): seq<Attempt>
    requires n <= |ranked|
  {
    if n == 0 then []
    else Failures(ranked, n - 1)
         + if ranked[n - 1].address.Some? then [Attempt(ranked[n - 1].nodeId, ranked[n - 1].address, false)] else []
  }

  function Accepted(offers: seq<Offer>): (r: seq<Offer>)
    ensures forall o :: o in r <==> o in offers && o.accepted
  {
    if offers == [] then []
    else
      var rest := Accepted(offers[1..]);
      assert offers == [offers[0]] + offers[1..];
      if offers[0].accepted then [offers[0]] + rest else rest
  }

  /** `tried` is the number of ranks passed over before the search ended. The verdict depends on the first rank
      that was not passed over, and the recorded attempts are the failures before it, in rank order, followed by one
      acceptance. `localOk` says whether queueing the job locally works, should the local offer be reached. */
  method Schedule(local: Text, offers: seq<Offer>, localOk: bool, remote: nat -> Remote)
      returns (r: Outcome, tried: nat)
    ensures var ranked := Rank(Accepted(offers));
            && tried <= |ranked|
            && (forall i :: 0 <= i < tried ==> Passed(local, ranked, remote, i))
            && (tried < |ranked| ==> !Passed(local, ranked, remote, tried))
            && (r.NoOffers? <==> ranked == [])
            && (r.AllFailed? <==> ranked != [] && tried == |ranked|)
            && (r.Placed? <==>
                  tried < |ranked| && (if ranked[tried].nodeId == local then localOk else remote(tried).Takes?))
            && (r.Placed? ==>
                  && r.offer == ranked[tried]
                  && r.attempts == Failures(ranked, tried)
                       + [Attempt(r.offer.nodeId, if r.offer.nodeId == local then None else r.offer.address, true)])
  {
    var ranked := Rank(Accepted(offers));
    if |ranked| == 0 {
      return NoOffers, 0;
    }
    var attempts: seq<Attempt> := [];
    tried := 0;
    while tried < |ranked|
      invariant 0 <= tried <= |ranked|
      invariant forall i :: 0 <= i < tried ==> Passed(local, ranked, remote, i)
      invariant attempts == Failures(ranked, tried)
    {
      var offer := ranked[tried];
      if offer.nodeId == local {
        if localOk {
          return Placed(offer, attempts + [Attempt(offer.nodeId, None, true)]), tried;
        } else {
          return Aborted, tried;
        }
      }
      if offer.address.Some? {
        match remote(tried) {
          case Takes => return Placed(offer, attempts + [Attempt(offer.nodeId, offer.address, true)]), tried;
          case Aborts => return Aborted, tried;
          case Fails => attempts := attempts + [Attempt(offer.nodeId, offer.address, false)];
        }
      }
      tried := tried + 1;
    }
    r := AllFailed;
  }

  /** The ranking holds exactly the accepted offers. */
  lemma RankHoldsAccepted(offers: seq<Offer>, o: Offer)
    ensures o in Rank(Accepted(offers)) <==> o in offers && o.accepted
  {
    var accepted := Accepted(offers);
    RankSorts(accepted);
    assert o in accepted <==> o in multiset(accepted);
    assert o in Rank(accepted) <==> o in multiset(Rank(accepted));
  }

  lemma HigherIsEarlier(ranked: seq<Offer>, i: nat, j: nat)
    requires Ranked(ranked) && i < |ranked| && j < |ranked| && Before(ranked[i], ranked[j])
    ensures i < j
  {
    LessIrreflexive(ranked[i].nodeId);
  }

  lemma HigherWasPassed(local: Text, ranked: seq<Offer>, remote: nat -> Remote, tried: nat, o: Offer)
    requires Ranked(ranked) && tried < |ranked| && o in ranked && Before(o, ranked[tried])
    requires forall k :: 0 <= k < tried ==> Passed(local, ranked, remote, k)
    ensures exists i :: 0 <= i < tried && ranked[i] == o && Passed(local, ranked, remote, i)
  {
    var i :| 0 <= i < |ranked| && ranked[i] == o;
    HigherIsEarlier(ranked, i, tried);
  }

  /** The winner is an accepted offer, and every accepted offer that ranks above it was tried before it and had no
      address or failed. */
  lemma WinnerIsBest(local: Text, offers: seq<Offer>, remote: nat -> Remote, tried: nat, o: Offer)
    requires var ranked := Rank(Accepted(offers));
             tried < |ranked| && forall k :: 0 <= k < tried ==> Passed(local, ranked, remote, k)
    ensures var winner := Rank(Accepted(offers))[tried]; winner in offers && winner.accepted
    ensures var ranked := Rank(Accepted(offers));
            o in offers && o.accepted && Before(o, ranked[tried]) ==>
              exists i :: 0 <= i < tried && ranked[i] == o && Passed(local, ranked, remote, i)
  {
    var ranked := Rank(Accepted(offers));
    RankSorts(Accepted(offers));
    RankHoldsAccepted(offers, ranked[tried]);
    RankHoldsAccepted(offers, o);
    if o in ranked && Before(o, ranked[tried]) {
      HigherWasPassed(local, ranked, remote, tried, o);
    }
  }
}
