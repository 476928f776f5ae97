/** The prefetching reader: two batches circulate between a prefetch goroutine and a consumer through two
    channels. Every interleaving of their steps, of fills and of Close is a run of this machine. */
module ReadAhead {
  import opened Common

  /** One of the two batches. */
  type Batch = b: nat | b < 2 witness 0

  /** Where the prefetch goroutine stands; a stopped one may still hold a batch. */
  datatype Prefetcher = Filling(b: Batch) | Offering(b: Batch) | Fetching | Stopped(held: Option<Batch>)

  /** `views` gives what each batch has published; `filled`, `delivered` and `dropped` are history. */
  datatype State<T> = State(
    pf: Prefetcher, ready: Option<Batch>, closed: bool, spent: seq<Batch>, quit: bool, failed: bool,
    cur: Option<Batch>, idx: nat, ended: bool, views0: seq<T>, views1: seq<T>,
    filled: seq<T>, delivered: seq<T>, dropped: seq<T>)

  const SPENT_CAP := 2

  ghost function Views<T>(s: State<T>, b: Batch): seq<T> {
    if b == 0 then s.views0 else s.views1
  }

  ghost function WithViews<T>(s: State<T>, b: Batch, v: seq<T>): State<T> {
    if b == 0 then s.(views0 := v) else s.(views1 := v)
  }

  // ---- the steps -----------------------------------------------------------------------------------

  datatype Event<T> =
    | Add(view: T) | FillOk | FillErr | Offer | OfferQuit | Fetch | FetchQuit
    | Deliver | GiveBack | Take | End | Close

  ghost predicate Enabled<T>(s: State<T>, e: Event<T>) {
    match e
    case Add(_) => s.pf.Filling?
    case FillOk => s.pf.Filling? && Views(s, s.pf.b) != []
    case FillErr => s.pf.Filling?
    case Offer => s.pf.Offering? && s.ready.None?
    case OfferQuit => s.pf.Offering? && s.quit
    case Fetch => s.pf.Fetching? && s.spent != []
    case FetchQuit => s.pf.Fetching? && s.quit
    case Deliver => s.cur.Some? && s.idx < |Views(s, s.cur.value)|
    case GiveBack => s.cur.Some? && s.idx >= |Views(s, s.cur.value)| && |s.spent| < SPENT_CAP
    case Take => s.cur.None? && s.ready.Some?
    case End => s.cur.None? && s.ready.None? && s.closed && !s.ended
    case Close => true
  }

  ghost function Step<T>(s: State<T>, e: Event<T>): State<T>
    requires Enabled(s, e)
  {
    match e
    case Add(v) => WithViews(s, s.pf.b, Views(s, s.pf.b) + [v])
    case FillOk => s.(pf := Offering(s.pf.b), filled := s.filled + Views(s, s.pf.b))
    case FillErr => s.(pf := Stopped(Some(s.pf.b)), failed := true, closed := true)
    case Offer => s.(pf := Fetching, ready := Some(s.pf.b))
    case OfferQuit => s.(pf := Stopped(Some(s.pf.b)), closed := true, dropped := Views(s, s.pf.b))
    case Fetch => WithViews(s, s.spent[0], []).(pf := Filling(s.spent[0]), spent := s.spent[1..])
    case FetchQuit => s.(pf := Stopped(None), closed := true)
    case Deliver => s.(delivered := s.delivered + [Views(s, s.cur.value)[s.idx]], idx := s.idx + 1)
    case GiveBack => s.(spent := s.spent + [s.cur.value], cur := None)
    case Take => s.(cur := s.ready, idx := 0, ready := None)
    case End => s.(ended := true)
    case Close => s.(quit := true)
  }

  /** As the constructor and Start leave it: one batch with the prefetcher, the other spent. */
  ghost predicate Initial<T>(s: State<T>) {
    s == State(Filling(0), None, false, [1], false, false, None, 0, false, [], s.views1, [], [], [])
  }

  ghost predicate Reaches<T>(s: State<T>, events: seq<Event<T>>, t: State<T>)
    decreases |events|
  {
    if events == [] then s == t else Enabled(s, events[0]) && Reaches(Step(s, events[0]), events[1..], t)
  }

  // ---- ownership -----------------------------------------------------------------------------------

  ghost function One(p: bool): nat {
    if p then 1 else 0
  }

  ghost predicate Holds(pf: Prefetcher, b: Batch) {
    match pf
    case Filling(x) => x == b
    case Offering(x) => x == b
    case Fetching => false
    case Stopped(h) => h == Some(b)
  }

  /** How many owners a batch has. */
  ghost function Owners<T>(s: State<T>, b: Batch): nat {
    One(Holds(s.pf, b)) + One(s.ready == Some(b)) + One(s.cur == Some(b))
    + One(|s.spent| > 0 && s.spent[0] == b) + One(|s.spent| > 1 && s.spent[1] == b)
  }

  ghost predicate Owned<T>(s: State<T>) {
    |s.spent| <= SPENT_CAP && Owners(s, 0) == 1 && Owners(s, 1) == 1
  }

  /** How the flags go together. */
  ghost predicate Shaped<T>(s: State<T>) {
    && (s.cur.Some? ==> s.idx <= |Views(s, s.cur.value)|)
    && (s.closed <==> s.pf.Stopped?)
    && (s.dropped != [] ==> s.pf.Stopped? && !s.failed && s.quit)
    && (s.failed ==> s.pf.Stopped?)
    && (s.ended ==> s.pf.Stopped? && s.cur.None? && s.ready.None?)
  }

  ghost function Draining<T>(s: State<T>): seq<T> {
    if s.cur.Some? && s.idx <= |Views(s, s.cur.value)| then Views(s, s.cur.value)[s.idx..] else []
  }

  ghost function Waiting<T>(s: State<T>): seq<T> {
    if s.ready.Some? then Views(s, s.ready.value) else []
  }

  ghost function Offered<T>(s: State<T>): seq<T> {
    if s.pf.Offering? then Views(s, s.pf.b) else []
  }

  /** Delivered, being drained, ready, offered and dropped, oldest first. */
  ghost function Line<T>(delivered: seq<T>, draining: seq<T>, waiting: seq<T>, offered: seq<T>,
                         dropped: seq<T>): seq<T>
  {
    delivered + draining + waiting + offered + dropped
  }

  ghost predicate Conserved<T>(s: State<T>) {
    s.filled == Line(s.delivered, Draining(s), Waiting(s), Offered(s), s.dropped)
  }

  ghost predicate Inv<T>(s: State<T>) {
    Owned(s) && Shaped(s) && Conserved(s)
  }

  /** No batch has two owners: where one is held, it is nowhere else, and what is drained can go back. */
  lemma OneOwner<T>(s: State<T>)
    requires Owned(s)
    ensures s.pf.Filling? || s.pf.Offering? ==> s.cur != Some(s.pf.b) && s.ready != Some(s.pf.b) && s.pf.b !in s.spent
    ensures s.cur.Some? ==> s.cur != s.ready && s.cur.value !in s.spent && |s.spent| < SPENT_CAP
    ensures s.ready.Some? ==> s.ready.value !in s.spent
  {
    assert Owners(s, 0) == 1 && Owners(s, 1) == 1;
  }

  // ---- every step keeps the invariant ------------------------------------------------------------------

  lemma OwnedStep<T>(s: State<T>, e: Event<T>)
    requires Owned(s) && Enabled(s, e)
    ensures Owned(Step(s, e))
  {
    OneOwner(s);
    BatchOwners(s, e, 0);
    BatchOwners(s, e, 1);
  }

  lemma BatchOwners<T>(s: State<T>, e: Event<T>, b: Batch)
    requires |s.spent| <= SPENT_CAP && Enabled(s, e)
    ensures Owners(Step(s, e), b) == Owners(s, b)
  {
    if e.Fetch? || e.GiveBack? {
      SpentOwners(s, e, b);
    } else if e.Deliver? || e.Take? || e.End? || e.Close? {
      ConsumerOwners(s, e, b);
    } else if e.Add? {
      assert Owners(WithViews(s, s.pf.b, Views(s, s.pf.b) + [e.view]), b) == Owners(s, b);
    } else {
      PrefetchOwners(s, e, b);
    }
  }

  lemma PrefetchOwners<T>(s: State<T>, e: Event<T>, b: Batch)
    requires |s.spent| <= SPENT_CAP && Enabled(s, e)
    requires e.FillOk? || e.FillErr? || e.Offer? || e.OfferQuit? || e.FetchQuit?
    ensures Owners(Step(s, e), b) == Owners(s, b)
  {
  }

  lemma ConsumerOwners<T>(s: State<T>, e: Event<T>, b: Batch)
    requires |s.spent| <= SPENT_CAP && Enabled(s, e) && (e.Deliver? || e.Take? || e.End? || e.Close?)
    ensures Owners(Step(s, e), b) == Owners(s, b)
  {
  }

  lemma SpentOwners<T>(s: State<T>, e: Event<T>, b: Batch)
    requires |s.spent| <= SPENT_CAP && Enabled(s, e) && (e.Fetch? || e.GiveBack?)
    ensures Owners(Step(s, e), b) == Owners(s, b)
  {
    var t := Step(s, e);
    if e.Fetch? {
      assert |t.spent| == |s.spent| - 1 && (|s.spent| > 1 ==> t.spent[0] == s.spent[1]);
    } else {
      assert t.spent == s.spent + [s.cur.value] && |s.spent| < 2;
    }
  }

  lemma ShapedStep<T>(s: State<T>, e: Event<T>)
    requires Owned(s) && Shaped(s) && Enabled(s, e)
    ensures Shaped(Step(s, e))
  {
    OneOwner(s);
    if e.Fetch? {
      assert s.spent[0] in s.spent;
    }
  }

  lemma LineMoves<T>(a: seq<T>, b: seq<T>, c: seq<T>, d: seq<T>, e: seq<T>)
    ensures b != [] ==> Line(a + [b[0]], b[1..], c, d, e) == Line(a, b, c, d, e)
    ensures Line(a, c, [], d, e) == Line(a, [], c, d, e)
    ensures Line(a, b, d, [], e) == Line(a, b, [], d, e)
    ensures Line(a, b, c, [], d) == Line(a, b, c, d, [])
    ensures Line(a, b, c, [], []) + d == Line(a, b, c, d, [])
  {
  }

  /** Writing to a batch nobody is draining, has ready or offers moves nothing. */
  lemma Elsewhere<T>(s: State<T>, b: Batch, v: seq<T>)
    requires s.cur != Some(b) && s.ready != Some(b) && !(s.pf.Offering? && s.pf.b == b)
    ensures var t := WithViews(s, b, v);
            Draining(t) == Draining(s) && Waiting(t) == Waiting(s) && Offered(t) == Offered(s)
  {
  }

  lemma FillConserves<T>(s: State<T>, e: Event<T>)
    requires Inv(s) && Enabled(s, e) && (e.Add? || e.FillOk? || e.FillErr?)
    ensures Conserved(Step(s, e))
  {
    OneOwner(s);
    if e.Add? {
      Elsewhere(s, s.pf.b, Views(s, s.pf.b) + [e.view]);
    }
    LineMoves(s.delivered, Draining(s), Waiting(s), Views(s, s.pf.b), s.dropped);
  }

  lemma OfferConserves<T>(s: State<T>, e: Event<T>)
    requires Inv(s) && Enabled(s, e) && (e.Offer? || e.OfferQuit?)
    ensures Conserved(Step(s, e))
  {
    LineMoves(s.delivered, Draining(s), Waiting(s), Offered(s), s.dropped);
  }

  lemma FetchConserves<T>(s: State<T>, e: Event<T>)
    requires Inv(s) && Enabled(s, e) && (e.Fetch? || e.FetchQuit?)
    ensures Conserved(Step(s, e))
  {
    OneOwner(s);
    if e.Fetch? {
      assert s.spent[0] in s.spent;
      Elsewhere(s, s.spent[0], []);
      var mid, t := WithViews(s, s.spent[0], []), Step(s, e);
      assert Draining(t) == Draining(mid) && Waiting(t) == Waiting(mid) && Offered(t) == [] == Offered(mid);
    }
  }

  lemma DrainConserves<T>(s: State<T>, e: Event<T>)
    requires Inv(s) && Enabled(s, e) && (e.Deliver? || e.GiveBack? || e.Take? || e.End? || e.Close?)
    ensures Conserved(Step(s, e))
  {
    LineMoves(s.delivered, Draining(s), Waiting(s), Offered(s), s.dropped);
    if e.Deliver? {
      assert Draining(s)[0] == Views(s, s.cur.value)[s.idx] && Draining(s)[1..] == Draining(Step(s, e));
    }
  }

  lemma StepKeeps<T>(s: State<T>, e: Event<T>)
    requires Inv(s) && Enabled(s, e)
    ensures Inv(Step(s, e))
  {
    OwnedStep(s, e);
    ShapedStep(s, e);
    if e.Add? || e.FillOk? || e.FillErr? {
      FillConserves(s, e);
    } else if e.Offer? || e.OfferQuit? {
      OfferConserves(s, e);
    } else if e.Fetch? || e.FetchQuit? {
      FetchConserves(s, e);
    } else {
      DrainConserves(s, e);
    }
  }

  lemma {:induction false} ReachesKeeps<T>(s: State<T>, events: seq<Event<T>>, t: State<T>)
    requires Inv(s) && Reaches(s, events, t)
    ensures Inv(t)
    decreases |events|
  {
    if events != [] {
      StepKeeps(s, events[0]);
      ReachesKeeps(Step(s, events[0]), events[1..], t);
    }
  }

  // ---- the theorems ------------------------------------------------------------------------------------

  /** What a run has published: the views added to a batch, once its fill ends well. `pending` are those of the fill
      under way and `log` what was published before. */
  ghost function Published<T>(events: seq<Event<T>>, pending: seq<T>, log: seq<T>): seq<T>
    decreases |events|
  {
    if events == [] then log
    else
      match events[0]
      case Add(v) => Published(events[1..], pending + [v], log)
      case FillOk => Published(events[1..], pending, log + pending)
      case Fetch => Published(events[1..], [], log)
      case _ => Published(events[1..], pending, log)
  }

  ghost function Pending<T>(e: Event<T>, pending: seq<T>): seq<T> {
    if e.Add? then pending + [e.view] else if e.Fetch? then [] else pending
  }

  /** The batch being filled holds what is pending. */
  ghost predicate FillsWith<T>(s: State<T>, pending: seq<T>) {
    s.pf.Filling? ==> Views(s, s.pf.b) == pending
  }

  lemma PendingStep<T>(s: State<T>, e: Event<T>, pending: seq<T>)
    requires Enabled(s, e) && FillsWith(s, pending)
    ensures FillsWith(Step(s, e), Pending(e, pending))
    ensures Step(s, e).filled == if e.FillOk? then s.filled + pending else s.filled
  {
  }

  lemma {:induction false} FilledIsPublished<T>(s: State<T>, events: seq<Event<T>>, t: State<T>, pending: seq<T>)
    requires Reaches(s, events, t) && FillsWith(s, pending)
    ensures t.filled == Published(events, pending, s.filled)
    decreases |events|
  {
    if events != [] {
      PendingStep(s, events[0], pending);
      FilledIsPublished(Step(s, events[0]), events[1..], t, Pending(events[0], pending));
    }
  }

  /** In every interleaving: each batch has exactly one owner, so the batch being filled is not the one
      being drained and giving a batch back never blocks; what was delivered is a prefix of what was
      published, and all of it once the consumer has seen the end of a source that failed. */
  lemma ReaderSafe<T>(s: State<T>, events: seq<Event<T>>, t: State<T>)
    requires Initial(s) && Reaches(s, events, t)
    ensures Owned(t)
    ensures t.pf.Filling? ==> t.cur != Some(t.pf.b) && t.ready != Some(t.pf.b) && t.pf.b !in t.spent
    ensures t.cur.Some? ==> |t.spent| < SPENT_CAP
    ensures t.delivered <= Published(events, [], [])
    ensures t.ended && (t.failed || !t.quit) ==> t.delivered == Published(events, [], [])
  {
    ReachesKeeps(s, events, t);
    FilledIsPublished(s, events, t, []);
    OneOwner(t);
  }

  /** Nothing but a running fill can hold the reader up: otherwise some goroutine has a step to take
      until the consumer has seen the end. */
  lemma NeverStuck<T>(s: State<T>) returns (e: Event<T>)
    requires Inv(s) && !s.ended && !s.pf.Filling?
    ensures !e.Close? && Enabled(s, e)
  {
    OneOwner(s);
    if s.cur.Some? {
      e := if s.idx < |Views(s, s.cur.value)| then Deliver else GiveBack;
    } else if s.ready.Some? {
      e := Take;
    } else {
      match s.pf
      case Offering(_) => e := Offer;
      case Fetching => e := Fetch;
      case Stopped(_) => e := End;
    }
  }

  /** The views of a batch being drained do not change under the consumer. */
  lemma DrainedIsStable<T>(s: State<T>, e: Event<T>)
    requires Inv(s) && Enabled(s, e) && s.cur.Some?
    ensures Views(Step(s, e), s.cur.value) == Views(s, s.cur.value)
  {
    OneOwner(s);
    if e.Fetch? {
      assert s.spent[0] in s.spent;
    }
  }
}
