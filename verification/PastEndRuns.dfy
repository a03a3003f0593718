// A run of the block cache in which sharing a fetch changes an answer: a range past the end
// of its object that alone would be refused, and that panics because another reader's fetch
// covers its block (docker/lancedb-go-disk-cache.rs, `get_blocks`).
module PastEndRuns {
  import opened Wrappers
  import opened BlockRanges
  import opened SingleFlight
  import CacheStore

  const OBJECT: Location := ["db", "data", "a.lance"]
  const DATA: seq<byte> := [7]

  ghost function Arriving(start: nat, end: nat): Reader
    requires start < end
  {
    Reader(OBJECT, start, end, true, None, seq((end - 1) / BLOCK_BYTES - start / BLOCK_BYTES + 1, _ => None), Deciding,
           false, false, 0, [], None)
  }

  // The first reader wants two blocks of the one-byte object, the second the second block.
  ghost function First(): Reader { Arriving(0, 2 * BLOCK_BYTES) }

  ghost function Second(): Reader { Arriving(BLOCK_BYTES, BLOCK_BYTES + 1) }

  ghost function WholeSpan(): Span { Span(1, 0, 1, DATA) }

  ghost function Shared(status: Status): Fetch { Fetch(OBJECT, 0, 1, 0, status) }

  ghost function At(inflight: map<Key, nat>, fetches: seq<Fetch>, readers: seq<Reader>): State {
    State(0, map[OBJECT := DATA], map[], map[], inflight, fetches, readers)
  }

  // The map once the first reader has published its fetch.
  ghost function Flying(): map<Key, nat> { Published(map[], OBJECT, 0, 1, 0) }

  ghost function Owner(): Reader { First().(phase := Owning(0), started := 1, awaited := [0]) }

  ghost function Joined(phase: Phase): Reader { Second().(phase := phase, joined := true, awaited := [0]) }

  // The same reader once the shared fetch has told it the size.
  ghost function Told(phase: Phase): Reader { Joined(phase).(size := Some(1)) }

  ghost function StepAt(n: nat): Step {
    match n
    case 0 => Create(OBJECT, DATA)
    case 1 => Arrive(First())
    case 2 => Decide(0, 0, 1)
    case 3 => Arrive(Second())
    case 4 => Decide(1, 1, 1)
    case 5 => Answer(0, false, false)
    case 6 => Read(0, false)
    case 7 => Store(0, false)
    case 8 => Store(0, false)
    case 9 => WaitFinished(1)
    case _ => Check(1, 0, 0)
  }

  ghost function StateAt(n: nat): State {
    match n
    case 0 => At(map[], [], []).(objects := map[])
    case 1 => At(map[], [], [])
    case 2 => At(map[], [], [First()])
    case 3 => At(Flying(), [Shared(Requested)], [Owner()])
    case 4 => At(Flying(), [Shared(Requested)], [Owner(), Second()])
    case 5 => At(Flying(), [Shared(Requested)], [Owner(), Joined(Waiting([0]))])
    case 6 => At(Flying(), [Shared(Reading(WholeSpan()))], [Owner(), Joined(Waiting([0]))])
    case 7 => At(Flying(), [Shared(Storing(WholeSpan(), 0))], [Owner(), Joined(Waiting([0]))])
    case 8 => At(Flying(), [Shared(Storing(WholeSpan(), 1))], [Owner(), Joined(Waiting([0]))])
    case 9 => At(Flying(), [Shared(Finished(Some(WholeSpan())))], [Owner(), Joined(Waiting([0]))])
    case 10 => At(Flying(), [Shared(Finished(Some(WholeSpan())))], [Owner(), Told(Waiting([]))])
    case _ => At(Flying(), [Shared(Finished(Some(WholeSpan())))], [Owner(), Told(Done(Panicked))])
  }

  lemma FirstFetches()
    ensures Next(StateAt(2), StepAt(2), StateAt(3))
  {
    var s, r := StateAt(2), First();
    assert |r.slots| == 2 && forall k :: 0 <= k < 2 ==> r.slots[k].None?;
    assert r.First() == 0;
    assert r.Missing(0) && r.Missing(1) && r.MissingSpan(0, 1);
    assert !AllInFlight(s, r) by { assert r.KeyAt(0) !in s.inflight; }
    assert Widen(0, OBJECT, None, r.start, r.end, 0, 1) == (0, 1);
    assert WithReader(s, 0, Owner()).readers == [Owner()];
    assert s.fetches + [Shared(Requested)] == [Shared(Requested)];
  }

  lemma SecondIs()
    ensures var r := Second();
      |r.slots| == 1 && r.slots[0].None? && r.First() == 1 && r.KeyAt(0) == (OBJECT, 1) && r.Missing(0)
  {
  }

  lemma SecondJoins()
    ensures Next(StateAt(4), StepAt(4), StateAt(5))
  {
    var s, r := StateAt(4), Second();
    SecondIs();
    assert s.readers[1] == r;
    assert r.MissingSpan(1, 1);
    assert (OBJECT, 1) in Flying() && Flying()[(OBJECT, 1)] == 0;
    assert AllInFlight(s, r);
    assert FoundAt(s, r, 0, 0);
    assert FoundWaits(s, r, 1) == [] && FoundWaits(s, r, 0) == [0];
    assert WithReader(s, 1, Joined(Waiting([0]))).readers == [Owner(), Joined(Waiting([0]))];
  }

  lemma FetchAnswers()
    ensures Next(StateAt(5), StepAt(5), StateAt(6))
    ensures Next(StateAt(6), StepAt(6), StateAt(7))
    ensures Next(StateAt(7), StepAt(7), StateAt(8))
    ensures Next(StateAt(8), StepAt(8), StateAt(9))
  {
    assert DATA[0..1] == DATA;
    assert Answered(StateAt(5), 0, false, false).fetches == [Shared(Reading(WholeSpan()))];
    assert Received(StateAt(6), 0, false).fetches == [Shared(Storing(WholeSpan(), 0))];
    assert Stored(StateAt(7), 0, false).fetches == [Shared(Storing(WholeSpan(), 1))];
    assert Stored(StateAt(8), 0, false).fetches == [Shared(Finished(Some(WholeSpan())))];
  }

  lemma SecondPanics()
    ensures Next(StateAt(9), StepAt(9), StateAt(10))
    ensures Next(StateAt(10), StepAt(10), StateAt(11))
  {
    SecondIs();
    var r := Joined(Waiting([0]));
    assert Filled(1, r.slots, WholeSpan()) == r.slots;
    assert [0][1..] == [];
    assert Filling(r, Some(WholeSpan())).(phase := Waiting([])) == Told(Waiting([]));
    assert StateAt(9).readers[1 := Told(Waiting([]))] == StateAt(10).readers;
    var told := Told(Waiting([]));
    assert told.slots == r.slots;
    assert told.NoneMissing();
    assert PiecesAt(told.slots, BLOCK_BYTES, BLOCK_BYTES, 1) == Pieces([]);
    assert Assemble(told.slots, 1, BLOCK_BYTES, 1) == SlicePanic;
    assert Finishing(told) == Told(Done(Panicked));
    assert StateAt(10).readers[1 := Told(Done(Panicked))] == StateAt(11).readers;
  }

  lemma Arrivals()
    ensures Next(StateAt(0), StepAt(0), StateAt(1))
    ensures Next(StateAt(1), StepAt(1), StateAt(2))
    ensures Next(StateAt(3), StepAt(3), StateAt(4))
  {
    assert [] + [First()] == [First()];
    assert [Owner()] + [Second()] == [Owner(), Second()];
  }

  lemma EachStep(n: nat)
    requires n < 11
    ensures Next(StateAt(n), StepAt(n), StateAt(n + 1))
  {
    hide Next, StateAt, StepAt;
    if n == 2 { FirstFetches(); }
    else if n == 4 { SecondJoins(); }
    else if 5 <= n <= 8 { FetchAnswers(); }
    else if 9 <= n { SecondPanics(); }
    else { Arrivals(); }
  }

  // The run: the second reader joins the first one's fetch and panics, though its own fetch
  // would start past the end and be refused.
  lemma JoinerPanics() returns (states: seq<State>, steps: seq<Step>)
    ensures Run(states, steps) && |states| == 12 && |states[11].readers| == 2
    ensures var r := states[11].readers[1];
      && r.start == BLOCK_BYTES && r.end == BLOCK_BYTES + 1 && states[11].objects == map[OBJECT := DATA]
      && r.location == OBJECT
      && r.joined && r.phase == Done(Panicked)
    ensures !CacheStore.PastEnd(0, OBJECT, DATA, BLOCK_BYTES, BLOCK_BYTES + 1)
  {
    hide Next;
    states, steps := seq(12, (n: nat) => StateAt(n)), seq(11, (n: nat) => StepAt(n));
    forall n | 0 <= n < |steps|
      ensures Next(states[n], steps[n], states[n + 1])
    {
      EachStep(n);
    }
    assert states[0] == StateAt(0) && Init(StateAt(0));
    assert states[11] == StateAt(11);
  }
}
