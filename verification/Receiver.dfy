/** The receive state of an AdvancedLink as the code keeps it: fields that
    consumeAdvancedChunk and its helpers update in place. Every method is proved to be
    the corresponding function of Reassembly. */
module Receiver {
  import opened Wire
  import opened Metadata
  import opened Reassembly

  /** newAdvancedLink: the limits, with the defaults of zero options applied. */
  function NewConfig(maxMessageSize: nat, maxReassemblyBytes: nat, metadata: bool): (c: Config)
    requires maxMessageSize < TWO_64 && maxReassemblyBytes < TWO_64
    ensures c.Valid()
    ensures maxMessageSize > 0 ==> c.maxMessageSize == maxMessageSize
    ensures maxReassemblyBytes > 0 ==> c.maxReassemblyBytes == maxReassemblyBytes
    ensures maxReassemblyBytes == 0 ==> c.maxReassemblyBytes == Min(4 * c.maxMessageSize, TWO_64 - 1)
  {
    var size := if maxMessageSize == 0 then 0x400_0000 else maxMessageSize;
    var wrapped := (size * 4) % TWO_64;
    var bytes :=
      if maxReassemblyBytes != 0 then maxReassemblyBytes
      else if wrapped / 4 != size then TWO_64 - 1
      else wrapped;
    Config(size, bytes, metadata)
  }

  /** A sweep in two parts. */
  lemma {:induction false} SweepAppend(c: Config, s: Rx, charge: nat, order: seq<Key>, k: Key)
    ensures Sweep(c, s, charge, order + [k]) == Sweep(c, Sweep(c, s, charge, order), charge, [k])
    decreases |order|
  {
    if order == [] {
      assert order + [k] == [k];
    } else if !Fits(c, s, charge) {
      assert (order + [k])[1..] == order[1..] + [k];
      var next := if order[0] in s.assemblies && Idle(s, order[0]) then Reclaim(s, order[0]) else s;
      SweepAppend(c, next, charge, order[1..], k);
    }
  }

  /** A sweep that visits every assembly finds room or leaves no idle one. */
  lemma {:induction false} SweepLeavesNoIdle(c: Config, s: Rx, charge: nat, order: seq<Key>)
    requires c.Valid() && Invariant(c, s) && forall k :: k in s.assemblies ==> k in order
    ensures Swept(c, Sweep(c, s.(chunksAtSweep := s.chunks), charge, order), charge)
  {
    var start := s.(chunksAtSweep := s.chunks);
    assert Invariant(c, start);
    SweepComplete(c, start, charge, order);
  }

  lemma {:induction false} RefusedHadNoRoom(c: Config, s: Rx, f: Frame, env: Env)
    requires c.Valid() && SizeError(c, f) == None && OpenIfFits(c, s, f, env).1.Refused?
    ensures !Fits(c, s, f.total + OVERHEAD)
    ensures
      var t := OpenIfFits(c, s, f, env).0;
      t.assemblies == s.assemblies && t.chunks == s.chunks
  {
  }

  class Link {
    const config: Config
    var assemblies: map<Key, Assembly>
    var assemblyBytes: nat
    var rejected: set<Key>
    var rejectedOrder: seq<Key>
    var rejectedEvicted: bool
    var chunks: nat
    var chunksAtSweep: nat
    var reclaimed: seq<Header>
    var dropped: nat

    function View(): Rx
      reads this
    {
      Rx(assemblies, assemblyBytes, rejected, rejectedOrder, rejectedEvicted, chunks, chunksAtSweep, reclaimed, dropped)
    }

    constructor (maxMessageSize: nat, maxReassemblyBytes: nat, metadata: bool)
      requires maxMessageSize < TWO_64 && maxReassemblyBytes < TWO_64
      ensures View() == EmptyRx
      ensures config == NewConfig(maxMessageSize, maxReassemblyBytes, metadata)
      ensures Invariant(config, View())
    {
      config := NewConfig(maxMessageSize, maxReassemblyBytes, metadata);
      assemblies, assemblyBytes := map[], 0;
      rejected, rejectedOrder, rejectedEvicted := {}, [], false;
      chunks, chunksAtSweep, reclaimed, dropped := 0, 0, [], 0;
      new;
      EmptyInvariant(config);
    }

    method Drop(k: Key)
      modifies this
      ensures View() == DropAssembly(old(View()), k)
    {
      if k in assemblies {
        assemblyBytes := Sub64(assemblyBytes, assemblies[k].Charge());
        assemblies := assemblies - {k};
      }
    }

    method Reject(k: Key)
      modifies this
      ensures View() == RejectMessage(old(View()), k)
    {
      if |rejectedOrder| >= MAX_REJECTED {
        rejected := rejected - {rejectedOrder[0]};
        rejectedOrder := rejectedOrder[1..];
        rejectedEvicted := true;
      }
      rejected := rejected + {k};
      rejectedOrder := rejectedOrder + [k];
    }

    method Forget(k: Key) returns (was: bool)
      modifies this
      ensures View() == ForgetRejected(old(View()), k)
      ensures was == (k in old(rejected))
    {
      if k !in rejected {
        return false;
      }
      rejected := rejected - {k};
      var i := 0;
      while i < |rejectedOrder| && rejectedOrder[i] != k
        invariant 0 <= i <= |rejectedOrder| && k !in rejectedOrder[..i]
        invariant rejectedOrder == old(rejectedOrder)
      {
        i := i + 1;
      }
      IndexOfUnique(rejectedOrder, k, i);
      if i < |rejectedOrder| {
        rejectedOrder := rejectedOrder[..i] + rejectedOrder[i + 1..];
      }
      return true;
    }

    method ReclaimOne(k: Key)
      requires k in assemblies
      modifies this
      ensures View() == Reclaim(old(View()), k)
    {
      var h := assemblies[k].hdr;
      var hdr := h.(flags := h.flags.(abort := true));
      Drop(k);
      Reject(k);
      dropped := Add64(dropped, 1);
      if hdr.flags.request || hdr.flags.response {
        reclaimed := reclaimed + [hdr];
      }
    }

    /** reclaimIdle. The assemblies are visited in an arbitrary order, which is
        reported: it covers all of them unless room was found before. */
    method MakeRoom(charge: nat) returns (ghost order: seq<Key>)
      requires config.Valid() && Invariant(config, View())
      modifies this
      ensures View() == ReclaimIdle(config, old(View()), charge, order)
      ensures Fits(config, View(), charge) || !SweepDue(config, old(View()), charge) ||
        forall k :: k in old(assemblies) ==> k in order
      ensures SweepDue(config, old(View()), charge) ==> Swept(config, View(), charge)
    {
      order := [];
      if charge > config.maxReassemblyBytes || assemblyBytes <= config.maxReassemblyBytes - charge {
        return;
      }
      if Sub64(chunks, chunksAtSweep) < (if |assemblies| > IDLE_CHUNKS then |assemblies| else IDLE_CHUNKS) {
        return;
      }
      ghost var before := View();
      order := SweepIdle(charge);
      if !Fits(config, View(), charge) {
        SweepLeavesNoIdle(config, before, charge, order);
      }
    }

    method SweepIdle(charge: nat) returns (ghost order: seq<Key>)
      requires config.Valid() && Invariant(config, View()) && charge <= config.maxReassemblyBytes
      modifies this
      ensures View() == Sweep(config, old(View()).(chunksAtSweep := old(chunks)), charge, order)
      ensures Fits(config, View(), charge) || forall k :: k in old(assemblies) ==> k in order
    {
      order := [];
      chunksAtSweep := chunks;
      ghost var start := View();
      var todo := assemblies.Keys;
      while todo != {}
        invariant todo <= assemblies.Keys
        invariant forall k :: k in old(assemblies) ==> k in todo || k in order
        invariant View() == Sweep(config, start, charge, order)
        decreases todo
      {
        if assemblyBytes <= config.maxReassemblyBytes - charge {
          return;
        }
        var k :| k in todo;
        todo := todo - {k};
        SweepAppend(config, start, charge, order, k);
        order := order + [k];
        if Sub64(chunks, assemblies[k].seen) >= IDLE_CHUNKS {
          ReclaimOne(k);
        }
      }
    }

    method FailWith(k: Key, e: Error) returns (o: Outcome)
      modifies this
      ensures (View(), o) == Fail(old(View()), k, e)
    {
      Drop(k);
      var _ := Forget(k);
      return Failed(e);
    }

    /** The part of consumeAdvancedChunk that adds a chunk to an assembly. */
    method AppendChunk(f: Frame) returns (o: Outcome)
      requires config.Valid() && SizeError(config, f) == None && f.MessageKey() in assemblies
      modifies this
      ensures (View(), o) == Append(config, old(View()), f)
    {
      var k := f.MessageKey();
      assemblies := assemblies[k := assemblies[k].(seen := chunks)];
      var a := assemblies[k];
      if f.offset != a.next || a.size != f.total {
        o := FailWith(k, ErrInvalidSize);
        return;
      }
      var data := CopyAt(a.data, f.offset, f.Chunk());
      assemblies := assemblies[k := a.(data := data, next := a.next + f.chunkSize)];
      assert assemblies == old(assemblies)[k := assemblies[k]];
      if !f.flags.end {
        return Partial;
      }
      if a.next + f.chunkSize != f.total {
        o := FailWith(k, ErrInvalidSize);
        return;
      }
      var hdr := a.hdr.(flags := a.hdr.flags.(begin := true, end := true));
      Drop(k);
      return Finish(Message(hdr, data, 0, f.total, None), a.recvAt);
    }

    /** The part of consumeAdvancedChunk that handles a Begin frame. */
    method BeginChunk(f: Frame, spare: seq<byte>, now: int) returns (o: Outcome, ghost env: Env)
      requires config.Valid() && SizeError(config, f) == None && Invariant(config, View())
      modifies this
      ensures env.spare == spare && env.now == now
      ensures (View(), o) == Begin(config, old(View()), f, env)
    {
      env := Env([], spare, now);
      var k := f.MessageKey();
      if f.offset != 0 || k in assemblies || k in rejected {
        o := FailWith(k, ErrInvalidSize);
        return;
      }
      if f.flags.end {
        if f.chunkSize != f.total {
          o := FailWith(k, ErrInvalidSize);
          return;
        }
        var data := CopyAt(TakeBuffer(config, f.total, spare), 0, f.Chunk());
        o := Finish(Message(f.FrameHeader(), data, 0, f.total, None), now);
        return;
      }
      o, env := OpenChunk(f, spare, now);
    }

    /** The part of consumeAdvancedChunk that opens a message of several chunks. */
    method OpenChunk(f: Frame, spare: seq<byte>, now: int) returns (o: Outcome, ghost env: Env)
      requires config.Valid() && SizeError(config, f) == None && Invariant(config, View())
      modifies this
      ensures env.spare == spare && env.now == now
      ensures (View(), o) == Open(config, old(View()), f, env)
      ensures o.Refused? && SweepDue(config, old(View()), f.total + OVERHEAD) ==>
        forall k :: k in assemblies ==> !Idle(View(), k)
    {
      ghost var before := View();
      ghost var order := MakeRoom(f.total + OVERHEAD);
      env := Env(order, spare, now);
      ghost var roomy := View();
      o := OpenIfRoom(f, env, spare, now);
      if o.Refused? {
        RefusedHadNoRoom(config, roomy, f, env);
      }
      OpensFrom(config, before, f, env);
    }

    method OpenIfRoom(f: Frame, ghost env: Env, spare: seq<byte>, now: int) returns (o: Outcome)
      requires config.Valid() && SizeError(config, f) == None && env.spare == spare && env.now == now
      modifies this
      ensures (View(), o) == OpenIfFits(config, old(View()), f, env)
    {
      var hdr := f.FrameHeader().(flags := f.flags.(begin := false, end := false));
      var charge := f.total + OVERHEAD;
      if charge > config.maxReassemblyBytes || assemblyBytes > config.maxReassemblyBytes - charge {
        Reject(f.MessageKey());
        o := Refused(hdr.(flags := hdr.flags.(abort := true)));
        return;
      }
      AdmitChunk(f, env, spare, now);
      o := AppendChunk(f);
    }

    method AdmitChunk(f: Frame, ghost env: Env, spare: seq<byte>, now: int)
      requires config.Valid() && SizeError(config, f) == None && env.spare == spare && env.now == now
      modifies this
      ensures View() == Admit(config, old(View()), f, env) && f.MessageKey() in assemblies
    {
      var hdr := f.FrameHeader().(flags := f.flags.(begin := false, end := false));
      var a := AssemblyRecord(hdr, TakeBuffer(config, f.total, spare), f.total, 0, 0, if f.flags.meta then now else 0);
      assemblies := assemblies[f.MessageKey() := a];
      assemblyBytes := Add64(assemblyBytes, f.total + OVERHEAD);
    }

    /** consumeAdvancedChunk. The frame may be anything; the invariant holds before and
        after, so the method can be called for ever. */
    method ConsumeChunk(f: Frame, spare: seq<byte>, now: int) returns (o: Outcome, ghost env: Env)
      requires config.Valid() && Invariant(config, View())
      modifies this
      ensures env.spare == spare && env.now == now
      ensures (View(), o) == Consume(config, old(View()), f, env)
      ensures Invariant(config, View())
    {
      env := Env([], spare, now);
      chunks := Add64(chunks, 1);
      var k := f.MessageKey();
      if !FlagsKnown(config, f.flags) {
        ConsumeKeeps(config, old(View()), f, env);
        return Failed(ErrProtocol), env;
      }
      if f.flags.abort {
        Drop(k);
        var was := Forget(k);
        ConsumeKeeps(config, old(View()), f, env);
        return if was then Partial else Aborted(f.FrameHeader()), env;
      }
      var e := SizeError(config, f);
      if e.Some? {
        o := FailWith(k, e.value);
      } else if f.flags.begin {
        assert Invariant(config, View());
        o, env := BeginChunk(f, spare, now);
      } else if k in assemblies {
        o := AppendChunk(f);
      } else if k in rejected || rejectedEvicted {
        if f.flags.end {
          var _ := Forget(k);
        }
        o := Partial;
      } else {
        o := Failed(ErrProtocol);
      }
      ConsumeKeeps(config, old(View()), f, env);
    }
  }

  lemma {:induction false} IndexOfUnique<T>(s: seq<T>, x: T, i: nat)
    requires i <= |s| && x !in s[..i] && (i < |s| ==> s[i] == x)
    ensures IndexOf(s, x) == i
  {
    var j := IndexOf(s, x);
  }
}
