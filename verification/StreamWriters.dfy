/** The writer shared by the pipeline and the pinger. Every event is one Write under a mutex, so a
    run is some interleaving of whole writes and pings. */
module StreamWriters {
  import opened Protocol

  /** syncStreamWriter, and bytes.Buffer when nothing pings. `frames` is what the client has received. */
  class StreamWriter {
    var frames: seq<Frame>
    var started: bool

    predicate Valid()
      reads this
    {
      started <==> frames != []
    }

    constructor ()
      ensures Valid() && frames == []
    {
      frames, started := [], false;
    }

    method Write(f: Frame)
      requires Valid()
      modifies this
      ensures Valid() && frames == old(frames) + [f]
    {
      started := true;
      frames := frames + [f];
    }

    /** A ping goes out only after the first event. */
    method SendPing()
      requires Valid()
      modifies this
      ensures Valid() && frames == if old(frames) == [] then [] else old(frames) + [Ping]
    {
      if !started { return; }
      frames := frames + [Ping];
    }
  }

  /** One atomic step of the two goroutines: the pipeline writes a frame, or the ticker fires. */
  datatype Step = Put(frame: Frame) | Tick

  /** What the client receives under a schedule. */
  function Received(schedule: seq<Step>): seq<Frame>
  {
    if schedule == [] then []
    else
      var n := |schedule| - 1;
      var before := Received(schedule[..n]);
      match schedule[n]
      case Put(f) => before + [f]
      case Tick => if before == [] then [] else before + [Ping]
  }

  /** What the pipeline wrote. */
  function Written(schedule: seq<Step>): seq<Frame>
  {
    if schedule == [] then []
    else
      var n := |schedule| - 1;
      Written(schedule[..n]) + if schedule[n].Put? then [schedule[n].frame] else []
  }

  function WithoutPings(frames: seq<Frame>): seq<Frame>
  {
    if frames == [] then []
    else
      var n := |frames| - 1;
      WithoutPings(frames[..n]) + if frames[n].Ping? then [] else [frames[n]]
  }

  /** Carrying out a schedule on the writer. */
  method Perform(w: StreamWriter, schedule: seq<Step>)
    requires w.Valid() && w.frames == []
    modifies w
    ensures w.Valid() && w.frames == Received(schedule)
  {
    for n := 0 to |schedule|
      invariant w.Valid() && w.frames == Received(schedule[..n])
    {
      assert schedule[..n + 1][..n] == schedule[..n];
      match schedule[n]
      case Put(f) => w.Write(f);
      case Tick => w.SendPing();
    }
    assert schedule[..|schedule|] == schedule;
  }

  lemma WithoutPingsOne(frames: seq<Frame>, f: Frame)
    ensures WithoutPings(frames + [f]) == WithoutPings(frames) + if f.Ping? then [] else [f]
  {
    assert (frames + [f])[..|frames|] == frames;
  }

  lemma AfterNext(frames: seq<Frame>, f: Frame)
    ensures After(Fresh, frames + [f]) == Accept(After(Fresh, frames), f)
  {
    assert (frames + [f])[..|frames|] == frames;
  }

  lemma FreshOnlyAtFirst(frames: seq<Frame>)
    ensures After(Fresh, frames) == Fresh <==> frames == []
  {
  }

  lemma PingAccepted(frames: seq<Frame>)
    requires frames != []
    ensures After(Fresh, frames + [Ping]) == After(Fresh, frames)
  {
    AfterNext(frames, Ping);
    FreshOnlyAtFirst(frames);
  }

  /** `all` is `written` with pings in between, none of them first, and means the same to the client. */
  predicate Pinged(all: seq<Frame>, written: seq<Frame>)
  {
    && WithoutPings(all) == written
    && After(Fresh, all) == After(Fresh, written)
    && (all == [] <==> written == [])
    && (all != [] ==> all[0] == written[0])
  }

  lemma PutKeeps(all: seq<Frame>, written: seq<Frame>, f: Frame)
    requires Pinged(all, written) && f != Ping
    ensures Pinged(all + [f], written + [f])
  {
    WithoutPingsOne(all, f);
    AfterNext(all, f);
    AfterNext(written, f);
  }

  lemma TickKeeps(all: seq<Frame>, written: seq<Frame>)
    requires Pinged(all, written) && all != []
    ensures Pinged(all + [Ping], written)
  {
    WithoutPingsOne(all, Ping);
    PingAccepted(all);
  }

  /** Whenever the ticker fires, the client receives the pipeline's frames with pings in between, the
      pipeline's first frame first, and its view of the protocol is the one it would have without pings. */
  lemma {:induction false} PingsAreHarmless(schedule: seq<Step>)
    requires Put(Ping) !in schedule
    ensures Pinged(Received(schedule), Written(schedule))
  {
    if schedule != [] {
      var n := |schedule| - 1;
      PingsAreHarmless(schedule[..n]);
      var before, written := Received(schedule[..n]), Written(schedule[..n]);
      assert schedule[n] in schedule;
      if schedule[n].Put? {
        PutKeeps(before, written, schedule[n].frame);
      } else if before != [] {
        TickKeeps(before, written);
      }
    }
  }

  function PingCount(frames: seq<Frame>): nat
  {
    if frames == [] then 0 else PingCount(frames[..|frames| - 1]) + if frames[|frames| - 1].Ping? then 1 else 0
  }

  predicate HasPut(schedule: seq<Step>) { exists i :: 0 <= i < |schedule| && schedule[i].Put? }

  /** How often the ticker fires once the first frame has been written. */
  function LateTicks(schedule: seq<Step>): nat
  {
    if schedule == [] then 0
    else
      var front, last := schedule[..|schedule| - 1], schedule[|schedule| - 1];
      LateTicks(front) + if last.Tick? && HasPut(front) then 1 else 0
  }

  lemma PingCountOne(frames: seq<Frame>, f: Frame)
    ensures PingCount(frames + [f]) == PingCount(frames) + if f.Ping? then 1 else 0
  {
    assert (frames + [f])[..|frames|] == frames;
  }

  lemma HasPutSnoc(front: seq<Step>, last: Step)
    ensures HasPut(front + [last]) <==> HasPut(front) || last.Put?
  {
    var all := front + [last];
    assert all[|front|] == last && forall i :: 0 <= i < |front| ==> all[i] == front[i];
    if HasPut(front) {
      var i :| 0 <= i < |front| && front[i].Put?;
      assert all[i].Put?;
    }
  }

  lemma ReceivedSnoc(front: seq<Step>, last: Step)
    ensures Received(front + [last]) ==
      match last
      case Put(f) => Received(front) + [f]
      case Tick => if Received(front) == [] then [] else Received(front) + [Ping]
    ensures LateTicks(front + [last]) == LateTicks(front) + if last.Tick? && HasPut(front) then 1 else 0
  {
    assert (front + [last])[..|front|] == front;
  }

  /** Every tick behind the first frame reaches the client as a ping, and no other ping does. */
  lemma {:induction false} EveryLateTickPings(schedule: seq<Step>)
    requires Put(Ping) !in schedule
    ensures PingCount(Received(schedule)) == LateTicks(schedule)
    ensures Received(schedule) != [] <==> HasPut(schedule)
    decreases |schedule|
  {
    if schedule != [] {
      var front, last := schedule[..|schedule| - 1], schedule[|schedule| - 1];
      assert schedule == front + [last] && last in schedule;
      EveryLateTickPings(front);
      ReceivedSnoc(front, last);
      HasPutSnoc(front, last);
      PingCountOne(Received(front), if last.Put? then last.frame else Ping);
    }
  }
}
