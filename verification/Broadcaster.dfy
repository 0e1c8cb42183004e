/** The broadcaster: it maps executions to their stream buffers, hands lines to them or directly to the
    hub, and ends an execution with its complete message. */
module Broadcasters {
  import Buf = StreamBuffers
  import opened Messages
  import opened Pipelines

  // Adding a line to a buffer that has not been stopped.
  lemma AddHolds(lim: Buf.Limits, s: Buf.Sys, l: LogData)
    requires lim.Positive() && Buf.Inv(lim, s)
    ensures var t := Buf.Next(lim, s, Buf.Add(l));
      Buf.Inv(lim, t) && t.phase == s.phase && t.delivered == s.delivered
  {
    hide Buf.Inv, Buf.Added;
    Buf.NextKeepsInv(lim, s, Buf.Add(l));
    Buf.AddAccepts(lim, s, l);
  }

  lemma NotStopped(lim: Buf.Limits, s: Buf.Sys)
    requires Buf.Inv(lim, s) && s.phase == Buf.NotCalled
    ensures !s.stopped
  {}

  lemma {:induction false} MessagesForConcat(id: string, a: seq<Batch>, b: seq<Batch>)
    ensures MessagesFor(id, a + b) == MessagesFor(id, a) + MessagesFor(id, b)
    decreases |b|
  {
    hide MessagesFor, BatchMessages;
    if b == [] {
      NoMessages(id);
      assert a + b == a;
    } else {
      var p, l := b[..|b| - 1], b[|b| - 1];
      MessagesForConcat(id, a, p);
      MessagesForLast(id, a + p, l);
      MessagesForLast(id, p, l);
      assert a + b == a + p + [l] && b == p + [l];
    }
  }

  lemma NoMessages(id: string)
    ensures MessagesFor(id, []) == []
  {}

  lemma {:induction false} OfOwn(id: string, ms: seq<BroadcastMessage>)
    requires forall m <- ms :: m.executionId == id
    ensures Of(id, ms) == ms
  {
    if ms != [] {
      OfOwn(id, ms[..|ms| - 1]);
    }
  }

  lemma {:induction false} OfOther(id: string, ms: seq<BroadcastMessage>)
    requires forall m <- ms :: m.executionId != id
    ensures Of(id, ms) == []
  {
    if ms != [] {
      OfOther(id, ms[..|ms| - 1]);
    }
  }

  // Since its position from, the channel holds of execution id exactly the messages of these batches.
  ghost predicate Carries(channel: seq<BroadcastMessage>, from: nat, id: string, delivered: seq<Batch>) {
    from <= |channel| && Of(id, channel[from..]) == MessagesFor(id, delivered)
  }

  lemma CarriesMore(channel: seq<BroadcastMessage>, from: nat, id: string, delivered: seq<Batch>, more: seq<Batch>)
    requires Carries(channel, from, id, delivered)
    ensures Carries(channel + MessagesFor(id, more), from, id, delivered + more)
  {
    hide Of, MessagesFor;
    var ms := MessagesFor(id, more);
    MessagesAreLogs(id, more);
    OfOwn(id, ms);
    MessagesForConcat(id, delivered, more);
    OfConcat(id, channel[from..], ms);
    assert (channel + ms)[from..] == channel[from..] + ms;
  }

  lemma CarriesOthers(channel: seq<BroadcastMessage>, from: nat, id: string, delivered: seq<Batch>,
                      ms: seq<BroadcastMessage>)
    requires Carries(channel, from, id, delivered) && forall m <- ms :: m.executionId != id
    ensures Carries(channel + ms, from, id, delivered)
  {
    hide Of, MessagesFor;
    OfOther(id, ms);
    OfConcat(id, channel[from..], ms);
    assert (channel + ms)[from..] == channel[from..] + ms;
  }

  lemma CarriesNothing(channel: seq<BroadcastMessage>, id: string)
    ensures Carries(channel, |channel|, id, [])
  {}

  lemma OneBatch(id: string, b: Batch)
    ensures MessagesFor(id, [b]) == BatchMessages(id, b)
  {
    MessagesForLast(id, [], b);
    assert [] + [b] == [b];
  }

  class Broadcaster {
    const maxLines: int
    const maxBytes: int
    const mode: Buf.OverflowMode
    var buffers: map<string, Buf.StreamBuffer>
    var channel: seq<BroadcastMessage>    // everything sent on Hub.Broadcast
    ghost var since: map<string, nat>     // the length of channel when the buffer was made

    constructor (maxLines: int, maxBytes: int, mode: Buf.OverflowMode)
      ensures Valid() && buffers == map[] && channel == []
      ensures this.maxLines == maxLines && this.maxBytes == maxBytes && this.mode == mode
    {
      this.maxLines, this.maxBytes, this.mode := maxLines, maxBytes, mode;
      buffers, channel, since := map[], [], map[];
    }

    // Executions have buffers of their own, no buffer in the map has been stopped, and what a buffer has
    // delivered is exactly what the channel holds of its execution since the buffer was made.
    ghost predicate Valid()
      reads this, buffers.Values
    {
      && (forall a, b | a in buffers && b in buffers && a != b :: buffers[a] != buffers[b])
      && forall id | id in buffers ::
           Open(buffers[id]) && id in since && Carries(channel, since[id], id, buffers[id].delivered)
    }

    static ghost predicate Open(b: Buf.StreamBuffer)
      reads b
    {
      b.lim.Positive() && Buf.Inv(b.lim, b.View()) && b.phase == Buf.NotCalled
    }

    method EnableBuffering(id: string)
      requires Valid()
      modifies this`buffers, this`since
      ensures Valid() && buffers.Keys == old(buffers).Keys + {id}
      ensures forall k | k in old(buffers) :: buffers[k] == old(buffers)[k] && since[k] == old(since)[k]
      ensures id !in old(buffers) ==>
        fresh(buffers[id]) && buffers[id].View() == Buf.Fresh && since[id] == |channel|
      ensures id !in old(buffers) ==> buffers[id].lim == Buf.Limits(
        if maxLines > 0 then maxLines else 50, if maxBytes > 0 then maxBytes else 1_048_576, mode)
    {
      hide Buf.Inv, Carries;
      if id in buffers {
        return;
      }
      var buf := new Buf.StreamBuffer(maxLines, maxBytes, mode);
      Buf.FreshHolds(buf.lim);
      CarriesNothing(channel, id);
      buffers, since := buffers[id := buf], since[id := |channel|];
    }

    // flushFn of a delivery goroutine: BroadcastBatch puts the batch on the channel.
    method DeliverBatch(id: string, i: nat)
      requires Valid() && id in buffers && i < |buffers[id].inFlight|
      modifies this`channel, buffers[id]
      ensures Valid()
      ensures buffers[id].View() == Buf.Next(buffers[id].lim, old(buffers[id].View()), Buf.Deliver(i))
      ensures channel == old(channel) + BatchMessages(id, old(buffers[id].inFlight[i]))
    {
      hide Buf.Inv, Carries, BatchMessages;
      var buf := buffers[id];
      var batch := buf.inFlight[i];
      Buf.NextKeepsInv(buf.lim, buf.View(), Buf.Deliver(i));
      OneBatch(id, batch);
      CarriesMore(channel, since[id], id, buf.delivered, [batch]);
      OwnMessages(id, batch);
      forall k | k in buffers && k != id
        ensures Carries(channel + BatchMessages(id, batch), since[k], k, buffers[k].delivered)
      {
        CarriesOthers(channel, since[k], k, buffers[k].delivered, BatchMessages(id, batch));
      }
      buf.Deliver(i);
      channel := channel + BatchMessages(id, batch);
    }

    // A line of a buffered execution goes into its buffer, any other line onto the channel.
    method BroadcastLogWithLevel(id: string, line: string, level: string)
      requires Valid()
      modifies this`channel, if id in buffers then {buffers[id]} else {}
      ensures Valid()
      ensures id in buffers ==>
        && channel == old(channel)
        && buffers[id].View() == Buf.Next(buffers[id].lim, old(buffers[id].View()), Buf.Add(Buf.LogData(line, level)))
      ensures id !in buffers ==> channel == old(channel) + [LineMessage(id, Buf.LogData(line, level))]
    {
      hide Buf.Inv, Buf.Next, Carries;
      if id in buffers {
        var buf := buffers[id];
        AddHolds(buf.lim, buf.View(), Buf.LogData(line, level));
        buf.Add(Buf.LogData(line, level));
        return;
      }
      BroadcastLogImmediate(id, line, level);
    }

    method BroadcastLog(id: string, line: string)
      requires Valid()
      modifies this`channel, if id in buffers then {buffers[id]} else {}
      ensures Valid()
      ensures id in buffers ==>
        && channel == old(channel)
        && buffers[id].View() == Buf.Next(buffers[id].lim, old(buffers[id].View()), Buf.Add(Buf.LogData(line, "")))
      ensures id !in buffers ==> channel == old(channel) + [LineMessage(id, Buf.LogData(line, ""))]
    {
      BroadcastLogWithLevel(id, line, "");
    }

    method BroadcastLogImmediate(id: string, line: string, level: string)
      requires Valid() && id !in buffers
      modifies this`channel
      ensures Valid() && channel == old(channel) + [LineMessage(id, Buf.LogData(line, level))]
    {
      hide Buf.Inv, Carries;
      var effectiveLevel := if level == "" then "info" else level;
      var m := BroadcastMessage(id, Log(Buf.LogData(line, level)), effectiveLevel);
      forall k | k in buffers ensures Carries(channel + [m], since[k], k, buffers[k].delivered) {
        CarriesOthers(channel, since[k], k, buffers[k].delivered, [m]);
      }
      channel := channel + [m];
    }

    // Stopping has led from buffer s to buffer t; since its position from, the channel holds exactly the
    // batches that t has delivered, and in them every line accepted and not dropped.
    ghost static predicate Emptied(id: string, channel: seq<BroadcastMessage>, from: nat, s: Buf.Sys, t: Buf.Sys) {
      && t.phase == Buf.Returned && s.delivered <= t.delivered && Carries(channel, from, id, t.delivered)
      && multiset(LinesIn(Of(id, channel[from..]))) + multiset(Buf.Drops(s.fates)) == multiset(s.accepted)
    }

    static lemma EmptiedWhen(id: string, channel: seq<BroadcastMessage>, from: nat, s: Buf.Sys, t: Buf.Sys)
      requires t.phase == Buf.Returned && s.delivered <= t.delivered && Carries(channel, from, id, t.delivered)
      requires multiset(Buf.Flatten(t.delivered)) + multiset(Buf.Drops(s.fates)) == multiset(s.accepted)
      ensures Emptied(id, channel, from, s, t)
    {
      hide LinesIn, Of, MessagesFor, Buf.Flatten, Buf.Drops;
      MessagesCarryLines(id, t.delivered);
    }

    static lemma EmptiedBy(id: string, channel: seq<BroadcastMessage>, from: nat, lim: Buf.Limits,
                           s: Buf.Sys, schedule: seq<Buf.Event>)
      requires lim.Positive() && Buf.Inv(lim, s) && Buf.ValidRun(lim, s, schedule)
      requires forall ev <- schedule :: ev.StopEnter? || ev.Deliver? || ev.StopLeave?
      requires Buf.Run(lim, s, schedule).phase == Buf.Returned
      requires Carries(channel, from, id, s.delivered)
      ensures var t := Buf.Run(lim, s, schedule);
        s.delivered <= t.delivered && Emptied(id, channel + MessagesFor(id, t.delivered[|s.delivered|..]), from, s, t)
    {
      hide Buf.Inv, Buf.Run, Buf.ValidRun, MessagesFor, Buf.Flatten, Buf.Drops, Carries, Emptied;
      Buf.StopDelivers(lim, s, schedule);
      var t := Buf.Run(lim, s, schedule);
      var more := t.delivered[|s.delivered|..];
      CarriesMore(channel, from, id, s.delivered, more);
      assert s.delivered + more == t.delivered;
      EmptiedWhen(id, channel + MessagesFor(id, more), from, s, t);
    }

    // Removes the buffer and stops it. flushFn runs for the batches that are delivered meanwhile, by the
    // goroutines still in flight and at last by Stop itself.
    method FlushBuffer(id: string)
      requires Valid()
      modifies this`buffers, this`channel, if id in buffers then {buffers[id]} else {}
      ensures Valid() && buffers == old(buffers) - {id} && old(channel) <= channel
      ensures id !in old(buffers) ==> channel == old(channel)
      ensures id in old(buffers) ==>
        Emptied(id, channel, old(since)[id], old(buffers[id].View()), old(buffers)[id].View())
    {
      hide Buf.Inv, Buf.Run, Buf.ValidRun, MessagesFor, Emptied, Carries;
      if id in buffers {
        var buf := buffers[id];
        buffers := buffers - {id};
        var before := |buf.delivered|;
        ghost var s := buf.View();
        NotStopped(buf.lim, s);
        ghost var schedule := buf.Stop();
        EmptiedBy(id, channel, since[id], buf.lim, s, schedule);
        Append(id, buf.delivered[before..]);
      } else {
        assert buffers == buffers - {id};
      }
    }

    // The calls of flushFn for these batches, of an execution that has no buffer in the map.
    method Append(id: string, batches: seq<Batch>)
      requires Valid() && id !in buffers
      modifies this`channel
      ensures Valid() && channel == old(channel) + MessagesFor(id, batches)
    {
      hide Buf.Inv, Carries, MessagesFor;
      var ms := MessagesFor(id, batches);
      MessagesAreLogs(id, batches);
      forall k | k in buffers ensures Carries(channel + ms, since[k], k, buffers[k].delivered) {
        CarriesOthers(channel, since[k], k, buffers[k].delivered, ms);
      }
      channel := channel + ms;
    }

    // The complete message comes behind everything the buffer has ever delivered.
    method BroadcastComplete(id: string, status: string)
      requires Valid()
      modifies this`buffers, this`channel, if id in buffers then {buffers[id]} else {}
      ensures Valid() && buffers == old(buffers) - {id}
      ensures channel != [] && channel[|channel| - 1] == BroadcastMessage(id, Complete(status), "")
      ensures old(channel) <= channel[..|channel| - 1]
      ensures id !in old(buffers) ==> channel[..|channel| - 1] == old(channel)
      ensures id in old(buffers) ==>
        Emptied(id, channel[..|channel| - 1], old(since)[id], old(buffers[id].View()), old(buffers)[id].View())
    {
      hide Buf.Inv, Emptied, Carries;
      FlushBuffer(id);
      ghost var flushed := channel;
      var m := BroadcastMessage(id, Complete(status), "");
      forall k | k in buffers ensures Carries(channel + [m], since[k], k, buffers[k].delivered) {
        CarriesOthers(channel, since[k], k, buffers[k].delivered, [m]);
      }
      channel := channel + [m];
      assert channel[..|channel| - 1] == flushed;
    }
  }

  lemma OwnMessages(id: string, b: Batch)
    ensures forall m <- BatchMessages(id, b) :: m.executionId == id
  {}
}
