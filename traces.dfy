/** Reading a handler trace: the statuses it sent, the pipeline stage of each
    call it made, and how those readings combine when traces are put together. */
module Traces {
  import opened Js
  import opened GenerativeModel
  import opened EventController

  /** The statuses sent, in order. */
  function Statuses(events: seq<Event>): seq<int> {
    if events == [] then []
    else (if events[0].Sent? then [events[0].status] else []) + Statuses(events[1..])
  }

  /** Where each collaborator sits in the pipeline. */
  function Rank(call: Call): nat {
    match call
    case FetchProduct(_) => 0
    case FetchProductType(_) => 1
    case AnalyzeImage(_) => 2
    case Ask(_) => 3
    case CreateRecord(_, _, _, _) => 4
    case UpdateRecord(_, _, _, _, _) => 5
  }

  /** The pipeline's stages, in order, for each call made. */
  function Ranks(events: seq<Event>): seq<nat> {
    if events == [] then []
    else (if events[0].Called? then [Rank(events[0].call)] else []) + Ranks(events[1..])
  }

  // The stages of a complete run, from the record writes back to the first fetch.
  const WriteStages: seq<nat> := [4, 5]
  const TranslateStages: seq<nat> := [3, 3, 3] + WriteStages
  const GenerateStages: seq<nat> := [3] + TranslateStages
  const EnrichStages: seq<nat> := [2] + GenerateStages
  /** The full pipeline: the product, its type, the image, the description
      request and the three translation requests, the create, the update. */
  const Pipeline: seq<nat> := [0, 1] + EnrichStages

  /** A call that belongs to the work done after the acknowledgement. */
  predicate IsWork(e: Event) {
    e.Called? && !e.call.FetchProduct? && !e.call.FetchProductType?
  }

  /** Some record update was called. */
  ghost predicate Updates(events: seq<Event>) {
    exists e :: e in events && e.Called? && e.call.UpdateRecord?
  }

  /** No call of the work that follows the acknowledgement. */
  ghost predicate NoWork(events: seq<Event>) {
    forall e :: e in events ==> !IsWork(e)
  }

  /** Every call of the work comes after a 200 has been sent. */
  ghost predicate AckedBeforeWork(events: seq<Event>) {
    forall i :: 0 <= i < |events| && IsWork(events[i]) ==> Sent(200) in events[..i]
  }

  function Threes(n: nat): (r: seq<nat>)
    ensures |r| == n && forall i :: 0 <= i < n ==> r[i] == 3
  {
    seq(n, i => 3)
  }

  /** The stage lists, as the stages of a complete run put them together. */
  lemma StagesAssemble()
    ensures [2] + ([3] + ([3, 3, 3] + WriteStages)) == EnrichStages
    ensures [0] + ([1] + EnrichStages) == Pipeline
  {
  }

  lemma {:induction false} StatusesAppend(a: seq<Event>, b: seq<Event>)
    ensures Statuses(a + b) == Statuses(a) + Statuses(b)
  {
    if a == [] {
      assert a + b == b;
    } else {
      var head := if a[0].Sent? then [a[0].status] else [];
      assert (a + b)[0] == a[0];
      assert (a + b)[1..] == a[1..] + b;
      StatusesAppend(a[1..], b);
      assert head + (Statuses(a[1..]) + Statuses(b)) == (head + Statuses(a[1..])) + Statuses(b);
    }
  }

  lemma {:induction false} RanksAppend(a: seq<Event>, b: seq<Event>)
    ensures Ranks(a + b) == Ranks(a) + Ranks(b)
  {
    if a == [] {
      assert a + b == b;
    } else {
      var head := if a[0].Called? then [Rank(a[0].call)] else [];
      assert (a + b)[0] == a[0];
      assert (a + b)[1..] == a[1..] + b;
      RanksAppend(a[1..], b);
      assert head + (Ranks(a[1..]) + Ranks(b)) == (head + Ranks(a[1..])) + Ranks(b);
    }
  }

  /** A single event: its status, or its stage. */
  lemma Single(e: Event)
    ensures Statuses([e]) == (if e.Sent? then [e.status] else [])
    ensures Ranks([e]) == (if e.Called? then [Rank(e.call)] else [])
  {
    assert [e][1..] == [];
  }

  lemma PrefixCons(x: nat, r: seq<nat>, s: seq<nat>)
    requires r <= s
    ensures [x] + r <= [x] + s
  {
    assert ([x] + s)[..|r| + 1] == [x] + r;
  }

  lemma PrefixAppend(a: seq<nat>, r: seq<nat>, s: seq<nat>)
    requires r <= s
    ensures a + r <= a + s
  {
    assert (a + s)[..|a| + |r|] == a + r;
  }

  lemma HeadIsPrefix(x: nat, s: seq<nat>)
    ensures [x] <= [x] + s
  {
    assert ([x] + s)[..1] == [x];
  }

  /** One call, then either a 500 because it failed, or the rest. */
  lemma Step(call: Call, failed: bool, rest: seq<Event>)
    ensures var h := [Called(call)] + (if failed then [Sent(500)] else rest);
            && Statuses(h) == (if failed then [500] else Statuses(rest))
            && Ranks(h) == (if failed then [Rank(call)] else [Rank(call)] + Ranks(rest))
            && Called(call) in h
            && (forall e :: e in h ==> e == Called(call) || (failed && e == Sent(500)) || (!failed && e in rest))
            && (!failed ==> forall e :: e in rest ==> e in h)
  {
    var tail := if failed then [Sent(500)] else rest;
    Single(Called(call));
    Single(Sent(500));
    StatusesAppend([Called(call)], tail);
    RanksAppend([Called(call)], tail);
    assert [Rank(call)] + [] == [Rank(call)];
  }

  /** `Step`, read for its stages alone. */
  lemma StepRanks(call: Call, failed: bool, rest: seq<Event>)
    ensures Ranks([Called(call)] + (if failed then [Sent(500)] else rest))
            == if failed then [Rank(call)] else [Rank(call)] + Ranks(rest)
  {
    var tail := if failed then [Sent(500)] else rest;
    Single(Called(call));
    Single(Sent(500));
    RanksAppend([Called(call)], tail);
    assert [Rank(call)] + [] == [Rank(call)];
  }

  /** `Step`, read for its statuses alone. */
  lemma StepStatuses(call: Call, failed: bool, rest: seq<Event>)
    ensures Statuses([Called(call)] + (if failed then [Sent(500)] else rest))
            == if failed then [500] else Statuses(rest)
  {
    var tail := if failed then [Sent(500)] else rest;
    Single(Called(call));
    Single(Sent(500));
    StatusesAppend([Called(call)], tail);
  }

  /** The last call, followed by a 500 when it failed. */
  lemma Last(call: Call, failed: bool)
    ensures var h := [Called(call)] + (if failed then [Sent(500)] else []);
            && Statuses(h) == (if failed then [500] else [])
            && Ranks(h) == [Rank(call)]
            && Called(call) in h
            && (forall e :: e in h ==> e == Called(call) || (failed && e == Sent(500)))
  {
    Step(call, failed, []);
    assert [Rank(call)] + [] == [Rank(call)];
  }

  /** The model requests send no status and are each one stage-3 call. */
  lemma {:induction false} AskCallsShape(requests: seq<Request>)
    ensures Statuses(AskCalls(requests)) == []
    ensures Ranks(AskCalls(requests)) == Threes(|requests|)
    ensures forall e :: e in AskCalls(requests) ==> e.Called? && e.call.Ask? && e.call.request in requests
  {
    if requests != [] {
      assert AskCalls(requests)[1..] == AskCalls(requests[1..]);
      AskCallsShape(requests[1..]);
      assert AskCalls(requests) == [AskCalls(requests)[0]] + AskCalls(requests[1..]);
      Single(AskCalls(requests)[0]);
      StatusesAppend([AskCalls(requests)[0]], AskCalls(requests[1..]));
      RanksAppend([AskCalls(requests)[0]], AskCalls(requests[1..]));
      assert Threes(|requests|) == [3] + Threes(|requests| - 1);
    }
  }

  /** The model requests, then either a 500 because one failed, or the rest;
      a successful run asked all three locales. */
  lemma Asks(requests: seq<Request>, failed: bool, rest: seq<Event>)
    requires |requests| <= 3
    requires !failed ==> |requests| == 3
    ensures var h := AskCalls(requests) + (if failed then [Sent(500)] else rest);
            && Statuses(h) == (if failed then [500] else Statuses(rest))
            && (failed ==> Ranks(h) <= [3, 3, 3] + WriteStages)
            && (!failed ==> Ranks(h) == [3, 3, 3] + Ranks(rest))
            && (forall e :: e in h ==>
                  (e.Called? && e.call.Ask? && e.call.request in requests)
                  || (failed && e == Sent(500)) || (!failed && e in rest))
            && (!failed ==> forall e :: e in rest ==> e in h)
  {
    var tail := if failed then [Sent(500)] else rest;
    AskCallsShape(requests);
    Single(Sent(500));
    StatusesAppend(AskCalls(requests), tail);
    RanksAppend(AskCalls(requests), tail);
    if failed {
      var r := Threes(|requests|);
      assert r + [] == r;
      assert r == ([3, 3, 3] + WriteStages)[..|r|];
    } else {
      assert Threes(3) == [3, 3, 3];
    }
  }

  /** The product and its type fetched, the 200 sent, then the work. */
  function AckedTrace(productId: Value, productType: Value, work: seq<Event>): seq<Event> {
    [Called(FetchProduct(productId))] + ([Called(FetchProductType(productType))] + ([Sent(200)] + work))
  }

  lemma AckedStatuses(productId: Value, productType: Value, work: seq<Event>)
    ensures Statuses(AckedTrace(productId, productType, work)) == [200] + Statuses(work)
  {
    var a := Called(FetchProduct(productId));
    var b := Called(FetchProductType(productType));
    Single(a);
    Single(b);
    Single(Sent(200));
    StatusesAppend([Sent(200)], work);
    StatusesAppend([b], [Sent(200)] + work);
    StatusesAppend([a], [b] + ([Sent(200)] + work));
    assert [] + ([] + ([200] + Statuses(work))) == [200] + Statuses(work);
  }

  lemma AckedRanks(productId: Value, productType: Value, work: seq<Event>)
    ensures Ranks(AckedTrace(productId, productType, work)) == [0] + ([1] + Ranks(work))
  {
    var a := Called(FetchProduct(productId));
    var b := Called(FetchProductType(productType));
    Single(a);
    Single(b);
    Single(Sent(200));
    RanksAppend([Sent(200)], work);
    RanksAppend([b], [Sent(200)] + work);
    RanksAppend([a], [b] + ([Sent(200)] + work));
    assert [] + Ranks(work) == Ranks(work);
  }

  /** The work is all of the acknowledged trace past the fetches and the 200. */
  lemma AckedWork(productId: Value, productType: Value, work: seq<Event>)
    ensures forall e :: e in AckedTrace(productId, productType, work) && IsWork(e) <==> e in work && IsWork(e)
  {
  }

  /** Whatever the work contains, the acknowledged trace contains. */
  lemma AckedContains(productId: Value, productType: Value, work: seq<Event>)
    ensures forall e :: e in work ==> e in AckedTrace(productId, productType, work)
  {
  }

  /** In the acknowledged trace the 200 precedes all the work. */
  lemma AckedOrder(productId: Value, productType: Value, work: seq<Event>)
    ensures AckedBeforeWork(AckedTrace(productId, productType, work))
  {
    var h := AckedTrace(productId, productType, work);
    forall i | 0 <= i < |h| && IsWork(h[i]) ensures Sent(200) in h[..i] {
      assert h[..i][2] == Sent(200);
    }
  }

  /** The acknowledged trace starts with the product fetch. */
  lemma AckedFetches(productId: Value, productType: Value, work: seq<Event>)
    ensures Called(FetchProduct(productId)) in AckedTrace(productId, productType, work)
  {
    assert AckedTrace(productId, productType, work)[0] == Called(FetchProduct(productId));
  }

  /** The stages of an acknowledged run that follow the pipeline from the image analysis on. */
  lemma AckedInPipeline(r: seq<nat>)
    requires r <= EnrichStages
    ensures [0] + ([1] + r) <= Pipeline
  {
    PrefixCons(1, r, EnrichStages);
    PrefixCons(0, [1] + r, [1] + EnrichStages);
    assert [0] + ([1] + EnrichStages) == Pipeline;
  }

  /** A trace without work updates no record. */
  lemma NoWorkNoWrites(events: seq<Event>)
    requires NoWork(events)
    ensures !Updates(events)
  {
    forall e | e in events ensures !IsWork(e) {
    }
  }

  /** What one event in front of a trace adds to its members. */
  lemma Members(head: Event, rest: seq<Event>)
    ensures forall e :: e in [head] + rest <==> e == head || e in rest
  {
  }

  /** A trace without work calls nothing but the two fetches. */
  lemma NoWorkOnlyFetches(events: seq<Event>)
    requires NoWork(events)
    ensures forall e :: e in events && e.Called? ==> e.call.FetchProduct? || e.call.FetchProductType?
  {
    forall e | e in events ensures !IsWork(e) {
    }
  }

  /** Answering at once, with no call made. */
  lemma AnsweredAtOnce(status: int)
    ensures Statuses([Sent(status)]) == [status] && Ranks([Sent(status)]) <= [0, 1] && NoWork([Sent(status)])
  {
    Single(Sent(status));
  }

  /** Answering after the product fetch. */
  lemma AnsweredAfterFetch(productId: Value, status: int)
    ensures var h := [Called(FetchProduct(productId))] + [Sent(status)];
            Statuses(h) == [status] && Ranks(h) <= [0, 1] && NoWork(h)
  {
    Step(FetchProduct(productId), false, [Sent(status)]);
    Single(Sent(status));
    assert [0] + [] == [0];
  }

  /** Answering with a 500 after both fetches. */
  lemma AnsweredAfterLookUp(productId: Value, productType: Value)
    ensures var h := [Called(FetchProduct(productId))] + ([Called(FetchProductType(productType))] + [Sent(500)]);
            Statuses(h) == [500] && Ranks(h) <= [0, 1] && NoWork(h)
  {
    Last(FetchProductType(productType), true);
    Step(FetchProduct(productId), false, [Called(FetchProductType(productType))] + [Sent(500)]);
  }

  /** After the acknowledgement, the statuses are the 200 and possibly one 500. */
  lemma AckStatuses(s: seq<int>)
    requires s in {[], [500]}
    ensures [200] + s in {[200], [200, 500]}
  {
    if s == [] {
      assert [200] + s == [200];
    } else {
      assert [200] + s == [200, 500];
    }
  }
}
