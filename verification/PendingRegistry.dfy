/** Outstanding unicast requests: buckets by (sender, policy, expected key), one reader that completes requests,
    and callers that register and cancel them. */
module PendingRegistry {
  import opened Basics

  const OPC_ACK := 0x7E
  const RESP_ACK := 1
  const RESP_SPECIFIC := 2

  datatype Key = Key(sender: seq<byte>, policy: int, expected: int)

  /** A numeric event field: left out, present without a value, or a number. */
  datatype Field = Missing | Null | Number(value: int)

  /** An inbound event; a sender that is missing or not bytes is `None`. */
  datatype Reply = Reply(sender: Option<seq<byte>>, opc: Field, ackOf: Field)

  /** `int(ev.get(name, -1))`, which raises on a null. */
  function OrMinusOne(f: Field): int
    requires !f.Null?
  {
    if f.Missing? then -1 else f.value
  }

  /** `int(ev.get("opc", -1)) & 0x7F`: an event without an opcode counts as 0x7F. */
  function Opcode(ev: Reply): int
    requires !ev.opc.Null?
  {
    OrMinusOne(ev.opc) % 128
  }

  predicate Matches(k: Key, ev: Reply) {
    && ev.sender == Some(k.sender)
    && !ev.opc.Null?
    && if k.policy == RESP_ACK then Opcode(ev) == OPC_ACK && !ev.ackOf.Null? && OrMinusOne(ev.ackOf) == k.expected
       else k.policy == RESP_SPECIFIC && Opcode(ev) == k.expected
  }

  // ---- buckets ----------------------------------------------------------------------

  type Buckets<T> = map<Key, seq<T>>

  function BucketOf<T>(b: Buckets<T>, k: Key): seq<T> {
    if k in b then b[k] else []
  }

  function Add<T>(b: Buckets<T>, k: Key, x: T): Buckets<T> {
    b[k := BucketOf(b, k) + [x]]
  }

  /** `list.remove`, which here is by identity: every request has its own completion event. */
  function Without<T(==)>(s: seq<T>, x: T): seq<T> {
    if s == [] then [] else if s[0] == x then s[1..] else [s[0]] + Without(s[1..], x)
  }

  /** Take a request out of its bucket and drop the bucket when it is empty. */
  function Remove<T(==)>(b: Buckets<T>, k: Key, x: T): Buckets<T> {
    if BucketOf(b, k) == [] then b
    else
      var rest := Without(b[k], x);
      if rest == [] then b - {k} else b[k := rest]
  }

  /** The requests an event may be for: those waiting for this acknowledgement, then those waiting for this
      opcode as a specific reply. */
  function Candidates<T>(b: Buckets<T>, ev: Reply): seq<T> {
    if ev.sender.None? || ev.opc.Null? then []
    else
      (if Opcode(ev) == OPC_ACK && ev.ackOf.Number? then BucketOf(b, AckKey(ev)) else [])
      + BucketOf(b, Key(ev.sender.value, RESP_SPECIFIC, Opcode(ev)))
  }

  function AckKey(ev: Reply): Key
    requires ev.sender.Some? && ev.ackOf.Number?
  {
    Key(ev.sender.value, RESP_ACK, ev.ackOf.value % 128)
  }

  lemma {:induction false} WithoutAscending(s: seq<int>, x: int)
    requires Ascending(s)
    ensures Ascending(Without(s, x))
    ensures forall y :: y in Without(s, x) <==> y in s && y != x
  {
    if s != [] {
      AscendingCons(s);
      if s[0] != x {
        WithoutAscending(s[1..], x);
        ConsAscending(s[0], Without(s[1..], x));
      }
    }
  }

  lemma {:induction false} AscendingCons(s: seq<int>)
    requires Ascending(s) && s != []
    ensures Ascending(s[1..])
    ensures forall y :: y in s[1..] ==> s[0] < y
    ensures forall y :: y in s <==> y == s[0] || y in s[1..]
  {
    assert s == [s[0]] + s[1..];
    forall i | 0 <= i < |s[1..]|
      ensures s[0] < s[1..][i]
    {
      assert s[1..][i] == s[i + 1];
    }
  }

  lemma {:induction false} ConsAscending(head: int, tail: seq<int>)
    requires Ascending(tail) && forall y :: y in tail ==> head < y
    ensures Ascending([head] + tail)
  {
    assert forall i :: 0 <= i < |tail| ==> tail[i] in tail;
  }

  // ---- the machine ----------------------------------------------------------------------

  /** `reply` is stored before `done` is set; `completed` is what the caller's wait returned, once it has; and
      `cancelled` is the caller's `finally`. */
  datatype Request = Request(key: Key, reply: Option<Reply>, done: bool, completed: Option<bool>, cancelled: bool)

  /** What `send_and_wait_for_reply` returns to its caller. */
  function Returned(r: Request): seq<Reply> {
    if r.completed == Some(true) && r.reply.Some? then [r.reply.value] else []
  }

  /** Where the reader is inside `try_match`, between its two locked regions. */
  datatype Reader = Idle | Trying(ev: Reply, candidates: seq<int>) | Stored(id: int) | Removing(id: int)

  datatype State = State(requests: seq<Request>, buckets: Buckets<int>, reader: Reader)

  const EMPTY := State([], map[], Idle)

  /** Register, the end of a wait and cancel belong to any number of callers, the other steps to the reader. */
  datatype Step =
    | Register(key: Key)
    | WaitOver(id: int)               // completed, or the timeout ran out
    | Cancel(id: int)
    | Snapshot(ev: Reply)
    | StoreReply
    | SetDone
    | Unlist

  predicate Hits(requests: seq<Request>, id: int, ev: Reply) {
    0 <= id < |requests| && Matches(requests[id].key, ev)
  }

  /** The first candidate the event matches. */
  function FirstMatch(requests: seq<Request>, candidates: seq<int>, ev: Reply): Option<int> {
    if candidates == [] then None
    else if Hits(requests, candidates[0], ev) then Some(candidates[0])
    else FirstMatch(requests, candidates[1..], ev)
  }

  predicate Known(s: State, id: int) {
    0 <= id < |s.requests|
  }

  function Next(s: State, step: Step): State {
    match step
    case Register(key) =>
      s.(requests := s.requests + [Request(key, None, false, None, false)], buckets := Add(s.buckets, key, |s.requests|))
    case WaitOver(id) =>
      if !Known(s, id) || s.requests[id].completed.Some? then s
      else s.(requests := s.requests[id := s.requests[id].(completed := Some(s.requests[id].done))])
    case Cancel(id) =>
      if !Known(s, id) then s
      else s.(requests := s.requests[id := s.requests[id].(cancelled := true)],
              buckets := Remove(s.buckets, s.requests[id].key, id))
    case Snapshot(ev) =>
      if !s.reader.Idle? then s else s.(reader := Trying(ev, Candidates(s.buckets, ev)))
    case StoreReply =>
      if !s.reader.Trying? then s
      else
        var hit := FirstMatch(s.requests, s.reader.candidates, s.reader.ev);
        if hit.None? || !Known(s, hit.value) then s.(reader := Idle)
        else s.(requests := s.requests[hit.value := s.requests[hit.value].(reply := Some(s.reader.ev))],
                reader := Stored(hit.value))
    case SetDone =>
      if !s.reader.Stored? || !Known(s, s.reader.id) then s
      else s.(requests := s.requests[s.reader.id := s.requests[s.reader.id].(done := true)], reader := Removing(s.reader.id))
    case Unlist =>
      if !s.reader.Removing? || !Known(s, s.reader.id) then s
      else s.(buckets := Remove(s.buckets, s.requests[s.reader.id].key, s.reader.id), reader := Idle)
  }

  function Run(s: State, steps: seq<Step>): State
    decreases |steps|
  {
    if steps == [] then s else Run(Next(s, steps[0]), steps[1..])
  }

  // ---- what every interleaving keeps -----------------------------------------------------------

  /** Buckets hold known requests under their own keys, in registration order, and are never empty. */
  ghost predicate Filed(s: State) {
    forall k :: k in s.buckets ==>
      && s.buckets[k] != [] && Ascending(s.buckets[k])
      && forall id :: id in s.buckets[k] ==> Known(s, id) && s.requests[id].key == k
  }

  predicate Listed(s: State, id: int)
    requires Known(s, id)
  {
    id in BucketOf(s.buckets, s.requests[id].key)
  }

  /** A request without a reply is listed until its caller cancels it, and nobody is listed after either end. */
  ghost predicate Placed(s: State, id: int)
    requires Known(s, id)
  {
    var r := s.requests[id];
    && (r.reply.None? && !r.cancelled ==> Listed(s, id))
    && (r.cancelled ==> !Listed(s, id))
    && (r.reply.Some? && Listed(s, id) ==> s.reader == Stored(id) || s.reader == Removing(id))
    && (r.reply.Some? ==> Matches(r.key, r.reply.value))
    && (r.done ==> r.reply.Some?)
    && (r.completed == Some(true) ==> r.done)
  }

  ghost predicate ReaderSound(s: State) {
    match s.reader
    case Idle => true
    case Trying(ev, candidates) => forall id :: id in candidates ==> Known(s, id) && s.requests[id].reply.None?
    case Stored(id) => Known(s, id) && s.requests[id].reply.Some? && !s.requests[id].done
    case Removing(id) => Known(s, id) && s.requests[id].reply.Some? && s.requests[id].done
  }

  ghost predicate Inv(s: State) {
    Filed(s) && ReaderSound(s) && forall id :: 0 <= id < |s.requests| ==> Placed(s, id)
  }

  lemma {:induction false} AddFiled(s: State, key: Key)
    requires Filed(s)
    ensures Filed(Next(s, Register(key)))
  {
    var n, b := |s.requests|, BucketOf(s.buckets, key);
    assert forall i :: 0 <= i < |b| ==> b[i] in b;
  }

  lemma {:induction false} RegisterKeeps(s: State, key: Key)
    requires Inv(s)
    ensures Inv(Next(s, Register(key)))
  {
    var t, n := Next(s, Register(key)), |s.requests|;
    AddFiled(s, key);
    assert n in t.buckets[key];
    forall id | 0 <= id < |t.requests|
      ensures Placed(t, id)
    {
      if id < n {
        assert Placed(s, id);
        assert Listed(t, id) <==> Listed(s, id);
      }
    }
  }

  /** Removing a request from its own bucket takes out that request and nothing else. */
  lemma {:induction false} RemoveEffect(s: State, id: int)
    requires Filed(s) && Known(s, id)
    ensures var t := s.(buckets := Remove(s.buckets, s.requests[id].key, id));
            Filed(t) && forall j :: 0 <= j < |s.requests| ==> (Listed(t, j) <==> Listed(s, j) && j != id)
  {
    var k := s.requests[id].key;
    var b, t := BucketOf(s.buckets, k), s.(buckets := Remove(s.buckets, k, id));
    if b != [] {
      WithoutAscending(b, id);
      assert forall j: int :: j in BucketOf(t.buckets, k) <==> j in b && j != id;
    }
  }

  lemma {:induction false} CancelKeeps(s: State, id: int)
    requires Inv(s) && Known(s, id)
    ensures Inv(Next(s, Cancel(id)))
  {
    var t := Next(s, Cancel(id));
    var u := s.(buckets := t.buckets);
    RemoveEffect(s, id);
    forall j | 0 <= j < |t.requests|
      ensures Placed(t, j)
    {
      assert Placed(s, j);
      assert Listed(t, j) <==> Listed(u, j);
    }
    assert Filed(t) by {
      assert Filed(u);
    }
  }

  lemma {:induction false} CandidatesSound(s: State, ev: Reply, id: int)
    requires Inv(s) && s.reader.Idle? && id in Candidates(s.buckets, ev)
    ensures Known(s, id) && s.requests[id].reply.None? && Listed(s, id)
  {
    var k: Key :| k in s.buckets && id in s.buckets[k];
    assert Known(s, id) && s.requests[id].key == k;
    assert Placed(s, id);
  }

  lemma {:induction false} SnapshotKeeps(s: State, ev: Reply)
    requires Inv(s) && s.reader.Idle?
    ensures Inv(Next(s, Snapshot(ev)))
  {
    var t := Next(s, Snapshot(ev));
    forall id | id in Candidates(s.buckets, ev)
      ensures Known(s, id) && s.requests[id].reply.None?
    {
      CandidatesSound(s, ev, id);
    }
    forall id | 0 <= id < |s.requests|
      ensures Placed(t, id)
    {
      assert Placed(s, id);
    }
  }

  /** `i` is the position of the first candidate that the event matches. */
  predicate FirstAt(requests: seq<Request>, candidates: seq<int>, ev: Reply, i: int) {
    0 <= i < |candidates| && Hits(requests, candidates[i], ev) && forall j :: 0 <= j < i ==> !Hits(requests, candidates[j], ev)
  }

  lemma {:induction false} FirstMatchIsFirst(requests: seq<Request>, candidates: seq<int>, ev: Reply)
    ensures var hit := FirstMatch(requests, candidates, ev);
            && (hit.None? ==> forall j :: 0 <= j < |candidates| ==> !Hits(requests, candidates[j], ev))
            && (hit.Some? ==> exists i :: FirstAt(requests, candidates, ev, i) && candidates[i] == hit.value)
    decreases |candidates|
  {
    if candidates == [] {
    } else if Hits(requests, candidates[0], ev) {
      assert FirstAt(requests, candidates, ev, 0);
    } else {
      FirstMatchIsFirst(requests, candidates[1..], ev);
      assert forall j :: 0 < j < |candidates| ==> candidates[j] == candidates[1..][j - 1];
      if FirstMatch(requests, candidates[1..], ev).Some? {
        var i :| FirstAt(requests, candidates[1..], ev, i) && candidates[1..][i] == FirstMatch(requests, candidates[1..], ev).value;
        assert candidates[i + 1] == candidates[1..][i];
        assert FirstAt(requests, candidates, ev, i + 1);
      }
    }
  }

  /** A change to one request that keeps its key and buckets. */
  lemma {:induction false} UpdateFiled(s: State, id: int, r: Request, reader: Reader)
    requires Filed(s) && Known(s, id) && r.key == s.requests[id].key
    ensures Filed(State(s.requests[id := r], s.buckets, reader))
  {
  }

  lemma {:induction false} StoreKeeps(s: State)
    requires Inv(s) && s.reader.Trying?
    ensures Inv(Next(s, StoreReply))
  {
    var t := Next(s, StoreReply);
    FirstMatchIsFirst(s.requests, s.reader.candidates, s.reader.ev);
    var hit := FirstMatch(s.requests, s.reader.candidates, s.reader.ev);
    if hit.Some? {
      assert hit.value in s.reader.candidates;
      assert Placed(s, hit.value);
      UpdateFiled(s, hit.value, t.requests[hit.value], t.reader);
    }
    forall id | 0 <= id < |t.requests|
      ensures Placed(t, id)
    {
      assert Placed(s, id);
    }
  }

  lemma {:induction false} DoneKeeps(s: State)
    requires Inv(s) && s.reader.Stored?
    ensures Inv(Next(s, SetDone))
  {
    var t, id := Next(s, SetDone), s.reader.id;
    UpdateFiled(s, id, t.requests[id], t.reader);
    forall j | 0 <= j < |t.requests|
      ensures Placed(t, j)
    {
      assert Placed(s, j);
    }
  }

  lemma {:induction false} UnlistKeeps(s: State)
    requires Inv(s) && s.reader.Removing?
    ensures Inv(Next(s, Unlist))
  {
    var t, id := Next(s, Unlist), s.reader.id;
    var u := s.(buckets := t.buckets);
    RemoveEffect(s, id);
    forall j | 0 <= j < |t.requests|
      ensures Placed(t, j)
    {
      assert Placed(s, j);
      assert Listed(t, j) <==> Listed(u, j);
    }
    assert Filed(t) by {
      assert Filed(u);
    }
  }

  lemma {:induction false} WaitKeeps(s: State, id: int)
    requires Inv(s) && Known(s, id)
    ensures Inv(Next(s, WaitOver(id)))
  {
    var t := Next(s, WaitOver(id));
    UpdateFiled(s, id, t.requests[id], t.reader);
    forall j | 0 <= j < |t.requests|
      ensures Placed(t, j)
    {
      assert Placed(s, j);
    }
  }

  lemma {:induction false} StepKeeps(s: State, step: Step)
    requires Inv(s)
    ensures Inv(Next(s, step))
  {
    match step
    case Register(key) => RegisterKeeps(s, key);
    case WaitOver(id) =>
      if Known(s, id) {
        WaitKeeps(s, id);
      }
    case Cancel(id) =>
      if Known(s, id) {
        CancelKeeps(s, id);
      }
    case Snapshot(ev) =>
      if s.reader.Idle? {
        SnapshotKeeps(s, ev);
      }
    case StoreReply =>
      if s.reader.Trying? {
        StoreKeeps(s);
      }
    case SetDone =>
      if s.reader.Stored? {
        DoneKeeps(s);
      }
    case Unlist =>
      if s.reader.Removing? {
        UnlistKeeps(s);
      }
  }

  /** Requests keep their keys, a stored reply is never replaced, and a cancelled request stays cancelled. */
  ghost predicate OnlyProgress(s: State, t: State) {
    && |s.requests| <= |t.requests|
    && forall id :: 0 <= id < |s.requests| ==>
         && s.requests[id].key == t.requests[id].key
         && (s.requests[id].reply.Some? ==> t.requests[id].reply == s.requests[id].reply)
         && (s.requests[id].done ==> t.requests[id].done)
         && (s.requests[id].completed.Some? ==> t.requests[id].completed == s.requests[id].completed)
         && (s.requests[id].cancelled ==> t.requests[id].cancelled)
  }

  lemma {:induction false} StepProgresses(s: State, step: Step)
    requires Inv(s)
    ensures OnlyProgress(s, Next(s, step))
  {
    if step.StoreReply? && s.reader.Trying? {
      FirstMatchIsFirst(s.requests, s.reader.candidates, s.reader.ev);
    }
  }

  /** Over every interleaving of register, cancel and the one reader's steps. */
  lemma {:induction false} RunKeeps(s: State, steps: seq<Step>)
    requires Inv(s)
    ensures Inv(Run(s, steps)) && OnlyProgress(s, Run(s, steps))
    decreases |steps|
  {
    if steps != [] {
      StepKeeps(s, steps[0]);
      StepProgresses(s, steps[0]);
      RunKeeps(Next(s, steps[0]), steps[1..]);
    }
  }

  /** A live request is listed exactly once in the whole registry, under its own key. */
  lemma {:induction false} LiveIsListedOnce(s: State, id: int)
    requires Inv(s) && Known(s, id) && s.requests[id].reply.None? && !s.requests[id].cancelled
    ensures forall k :: k in s.buckets ==> multiset(s.buckets[k])[id] == if k == s.requests[id].key then 1 else 0
  {
    assert Placed(s, id);
    forall k | k in s.buckets
      ensures multiset(s.buckets[k])[id] == if k == s.requests[id].key then 1 else 0
    {
      OnceInAscending(s.buckets[k], id);
    }
  }

  lemma {:induction false} OnceInAscending(s: seq<int>, x: int)
    requires Ascending(s)
    ensures multiset(s)[x] == if x in s then 1 else 0
  {
    if s != [] {
      assert s == [s[0]] + s[1..];
      OnceInAscending(s[1..], x);
      forall i | 0 <= i < |s[1..]|
        ensures s[1..][i] != s[0]
      {
        assert s[0] < s[i + 1];
      }
    }
  }

  /** One event completes at most one request: the first candidate it matches. */
  lemma {:induction false} CompletesFirstCandidate(s: State)
    requires Inv(s) && s.reader.Trying?
    ensures var t := Next(s, StoreReply); var cs, ev := s.reader.candidates, s.reader.ev;
            (t.requests == s.requests && forall j :: 0 <= j < |cs| ==> !Hits(s.requests, cs[j], ev))
            || exists i :: FirstAt(s.requests, cs, ev, i) && t.requests == s.requests[cs[i] := s.requests[cs[i]].(reply := Some(ev))]
  {
    FirstMatchIsFirst(s.requests, s.reader.candidates, s.reader.ev);
  }

  /** A listed request that the event matches is among the candidates exactly when its expected key has seven
      bits or it waits for a specific reply: a wider acknowledgement key is never looked up. */
  lemma {:induction false} CandidateIff(s: State, ev: Reply, id: int)
    requires Inv(s) && Known(s, id) && Listed(s, id) && Matches(s.requests[id].key, ev)
    ensures id in Candidates(s.buckets, ev)
            <==> s.requests[id].key.policy == RESP_SPECIFIC || 0 <= s.requests[id].key.expected < 128
  {
    var k := s.requests[id].key;
    var specific := Key(ev.sender.value, RESP_SPECIFIC, Opcode(ev));
    assert id in BucketOf(s.buckets, specific) <==> k == specific;
    if k.policy == RESP_ACK && ev.ackOf.Number? {
      assert id in BucketOf(s.buckets, AckKey(ev)) <==> k == AckKey(ev);
    }
  }

  /** A waiting request this event answers and the lookup can find. */
  predicate Serves(s: State, ev: Reply, id: int) {
    && Hits(s.requests, id, ev) && Listed(s, id)
    && (s.requests[id].key.policy == RESP_SPECIFIC || 0 <= s.requests[id].key.expected < 128)
  }

  /** An undisturbed event is consumed exactly when some listed request it can serve waits for it. */
  lemma {:induction false} ConsumedIff(s: State, ev: Reply)
    requires Inv(s) && s.reader.Idle?
    ensures Next(Next(s, Snapshot(ev)), StoreReply).requests != s.requests <==> exists id :: Serves(s, ev, id)
  {
    var t, cs := Next(s, Snapshot(ev)), Candidates(s.buckets, ev);
    SnapshotKeeps(s, ev);
    FirstMatchIsFirst(s.requests, cs, ev);
    var hit := FirstMatch(s.requests, cs, ev);
    if hit.Some? {
      assert hit.value in cs;
      CandidatesSound(s, ev, hit.value);
      CandidateIff(s, ev, hit.value);
      assert Serves(s, ev, hit.value);
      assert Next(t, StoreReply).requests[hit.value].reply.Some?;
    } else {
      assert forall id :: id in cs ==> !Hits(s.requests, id, ev);
      forall id
        ensures !Serves(s, ev, id)
      {
        if Hits(s.requests, id, ev) && Listed(s, id) {
          CandidateIff(s, ev, id);
        }
      }
    }
  }

  /** Such a request exists only for a key wider than seven bits: registered, listed and matched, never found. */
  lemma {:induction false} WideKeyIsNeverFound(sender: seq<byte>, expected: int)
    requires !(0 <= expected < 128)
    ensures var key, ev := Key(sender, RESP_ACK, expected), Reply(Some(sender), Number(OPC_ACK), Number(expected));
            var s := Next(EMPTY, Register(key));
            && Listed(s, 0) && Matches(key, ev) && Candidates(s.buckets, ev) == []
            && Run(s, [Snapshot(ev), StoreReply]) == s
  {
    var key, ev := Key(sender, RESP_ACK, expected), Reply(Some(sender), Number(OPC_ACK), Number(expected));
    var s := Next(EMPTY, Register(key));
    assert s.buckets[key] == [0];
    assert [Snapshot(ev), StoreReply][1..] == [StoreReply] && [StoreReply][1..] == [];
    assert Run(Next(s, Snapshot(ev)), [StoreReply]) == Next(Next(s, Snapshot(ev)), StoreReply);
  }

  // ---- what the caller gets -------------------------------------------------------------------

  /** A caller gets the stored reply if and only if the request was completed when its wait ended, whatever happens
      before and after; and what it gets matches its request. */
  lemma {:induction false} ReplyReachesCallerIff(s: State, before: seq<Step>, id: int, after: seq<Step>)
    requires Inv(s) && Known(Run(s, before), id) && Run(s, before).requests[id].completed.None?
    ensures var t := Run(s, before);
            var u := Run(Next(t, WaitOver(id)), after);
            && Known(u, id)
            && (Returned(u.requests[id]) != [] <==> t.requests[id].done)
            && (t.requests[id].done ==> t.requests[id].reply.Some? && Returned(u.requests[id]) == [t.requests[id].reply.value])
            && forall r :: r in Returned(u.requests[id]) ==> Matches(u.requests[id].key, r)
  {
    RunKeeps(s, before);
    var t := Run(s, before);
    assert Placed(t, id);
    var w := Next(t, WaitOver(id));
    StepKeeps(t, WaitOver(id));
    RunKeeps(w, after);
    assert Placed(Run(w, after), id);
  }

  /** A reply is lost exactly when its request was completed only after the wait had ended. If that happens between
      the snapshot and the completion, the event is spent: the request it completes returns nothing, and no other
      request, however well it matches, has changed. */
  lemma {:induction false} LateReplyIsLost(s: State, id: int)
    requires Inv(s) && s.reader.Trying? && FirstMatch(s.requests, s.reader.candidates, s.reader.ev) == Some(id)
    requires Known(s, id) && s.requests[id].completed.None?
    ensures var t := Next(Next(s, WaitOver(id)), Cancel(id));
            var u := Next(Next(Next(t, StoreReply), SetDone), Unlist);
            && u.requests[id].reply == Some(s.reader.ev) && Returned(u.requests[id]) == []
            && u.reader == Idle && !Listed(u, id)
            && forall j :: 0 <= j < |s.requests| && j != id ==> u.requests[j] == s.requests[j] && (Listed(u, j) <==> Listed(s, j))
  {
    var w := Next(s, WaitOver(id));
    var t := Next(w, Cancel(id));
    LateState(s, id);
    var v := Next(Next(t, StoreReply), SetDone);
    StepKeeps(s, WaitOver(id));
    StepKeeps(w, Cancel(id));
    StepKeeps(t, StoreReply);
    StepKeeps(Next(t, StoreReply), SetDone);
    assert Placed(s, id);
    RemoveEffect(w, id);
    RemoveEffect(v, id);
    var u := Next(v, Unlist);
    assert v.reader == Removing(id);
    forall j | 0 <= j < |s.requests|
      ensures Listed(u, j) <==> Listed(s, j) && j != id
    {
      assert Listed(w, j) <==> Listed(s, j);
      assert Listed(t, j) <==> Listed(w.(buckets := t.buckets), j);
      assert Listed(v, j) <==> Listed(t, j);
      assert Listed(u, j) <==> Listed(v.(buckets := u.buckets), j);
    }
  }

  /** The end of a wait and a cancel do not change which candidate the event matches first. */
  lemma {:induction false} LateState(s: State, id: int)
    requires Inv(s) && s.reader.Trying? && Known(s, id)
    ensures var t := Next(Next(s, WaitOver(id)), Cancel(id));
            FirstMatch(t.requests, s.reader.candidates, s.reader.ev) == FirstMatch(s.requests, s.reader.candidates, s.reader.ev)
  {
    SameFirstMatch(s.requests, Next(Next(s, WaitOver(id)), Cancel(id)).requests, s.reader.candidates, s.reader.ev);
  }

  lemma {:induction false} SameFirstMatch(a: seq<Request>, b: seq<Request>, candidates: seq<int>, ev: Reply)
    requires |a| == |b| && forall i :: 0 <= i < |a| ==> a[i].key == b[i].key
    ensures FirstMatch(a, candidates, ev) == FirstMatch(b, candidates, ev)
    decreases |candidates|
  {
    if candidates != [] {
      SameFirstMatch(a, b, candidates[1..], ev);
    }
  }

  /** Once every caller has cancelled, nothing is left. */
  lemma {:induction false} AllCancelledIsEmpty(s: State)
    requires Inv(s) && forall id :: 0 <= id < |s.requests| ==> s.requests[id].cancelled
    ensures s.buckets == map[]
  {
    if k :| k in s.buckets {
      var id := s.buckets[k][0];
      assert Known(s, id) && s.requests[id].key == k;
      assert Placed(s, id) && Listed(s, id);
    }
  }

  /** From the empty registry, over every interleaving that ends with every request cancelled. */
  lemma {:induction false} RegistryEmpties(steps: seq<Step>)
    requires forall id :: 0 <= id < |Run(EMPTY, steps).requests| ==> Run(EMPTY, steps).requests[id].cancelled
    ensures Run(EMPTY, steps).buckets == map[]
  {
    assert Inv(EMPTY);
    RunKeeps(EMPTY, steps);
    AllCancelledIsEmpty(Run(EMPTY, steps));
  }

  // ---- the registry object ----------------------------------------------------------------------

  class PendingRequest {
    const key: Key
    var reply: Option<Reply>
    var done: bool

    constructor (key: Key)
      ensures this.key == key && reply.None? && !done
    {
      this.key := key;
      reply, done := None, false;
    }
  }

  /** `objs` are the requests that `ids` number in `all`. */
  ghost predicate Names(all: seq<PendingRequest>, objs: seq<PendingRequest>, ids: seq<int>) {
    |objs| == |ids| && forall j :: 0 <= j < |ids| ==> 0 <= ids[j] < |all| && objs[j] == all[ids[j]]
  }

  ghost predicate BucketsNamed(all: seq<PendingRequest>, b: Buckets<PendingRequest>, c: Buckets<int>) {
    b.Keys == c.Keys && forall k :: k in c ==> Names(all, b[k], c[k])
  }

  ghost predicate SameFields(all: seq<PendingRequest>, requests: seq<Request>)
    reads all
  {
    && |all| == |requests| && Distinct(all)
    && forall i :: 0 <= i < |all| ==>
         all[i].key == requests[i].key && all[i].reply == requests[i].reply && all[i].done == requests[i].done
  }

  lemma {:induction false} WithoutNamed(all: seq<PendingRequest>, objs: seq<PendingRequest>, ids: seq<int>, id: int)
    requires Distinct(all) && Names(all, objs, ids) && 0 <= id < |all|
    ensures Names(all, Without(objs, all[id]), Without(ids, id))
    decreases |objs|
  {
    if objs != [] {
      assert objs[0] == all[id] <==> ids[0] == id;
      NamesTail(all, objs, ids);
      if ids[0] != id {
        WithoutNamed(all, objs[1..], ids[1..], id);
        NamesCons(all, objs[0], ids[0], Without(objs[1..], all[id]), Without(ids[1..], id));
      }
    }
  }

  lemma {:induction false} NamesTail(all: seq<PendingRequest>, objs: seq<PendingRequest>, ids: seq<int>)
    requires Names(all, objs, ids) && objs != []
    ensures Names(all, objs[1..], ids[1..])
  {
  }

  lemma {:induction false} NamesCons(all: seq<PendingRequest>, obj: PendingRequest, id: int, objs: seq<PendingRequest>, ids: seq<int>)
    requires Names(all, objs, ids) && 0 <= id < |all| && obj == all[id]
    ensures Names(all, [obj] + objs, [id] + ids)
  {
  }

  lemma {:induction false} RemoveNamed(all: seq<PendingRequest>, b: Buckets<PendingRequest>, c: Buckets<int>, k: Key, id: int)
    requires Distinct(all) && BucketsNamed(all, b, c) && 0 <= id < |all|
    ensures BucketsNamed(all, Remove(b, k, all[id]), Remove(c, k, id))
  {
    if k in b {
      WithoutNamed(all, b[k], c[k], id);
    }
  }

  lemma {:induction false} CandidatesNamed(all: seq<PendingRequest>, b: Buckets<PendingRequest>, c: Buckets<int>, ev: Reply)
    requires BucketsNamed(all, b, c)
    ensures Names(all, Candidates(b, ev), Candidates(c, ev))
  {
  }

  lemma {:induction false} AfterCompletion(s: State)
    requires s.reader.Trying?
    ensures var hit := FirstMatch(s.requests, s.reader.candidates, s.reader.ev);
            var t := Next(Next(s, StoreReply), SetDone);
            if hit.Some? then Known(s, hit.value) && Known(t, hit.value) && t.reader == Removing(hit.value) else Next(t, Unlist) == t
  {
    FirstMatchIsFirst(s.requests, s.reader.candidates, s.reader.ev);
  }

  class PendingRequestRegistry {
    var byKey: Buckets<PendingRequest>

    /** The registry and every request ever made stand for the state `s` of the machine above. */
    ghost predicate StandsFor(all: seq<PendingRequest>, s: State)
      reads this, all
    {
      BucketsNamed(all, byKey, s.buckets) && SameFields(all, s.requests)
    }

    constructor ()
      ensures StandsFor([], EMPTY)
    {
      byKey := map[];
    }

    method Enter(key: Key, ghost all: seq<PendingRequest>, ghost s: State) returns (req: PendingRequest)
      requires StandsFor(all, s)
      modifies this
      ensures fresh(req) && req.key == key && byKey == Add(old(byKey), key, req)
      ensures StandsFor(all + [req], Next(s, Register(key)))
    {
      req := new PendingRequest(key);
      if key !in byKey {
        byKey := byKey[key := []];
      }
      byKey := byKey[key := byKey[key] + [req]];
      ghost var more := all + [req];
      assert forall k :: k in s.buckets ==> Names(more, old(byKey)[k], s.buckets[k]);
    }

    /** `cancel`, which a caller may repeat. */
    method Withdraw(req: PendingRequest, ghost all: seq<PendingRequest>, ghost s: State, ghost id: int)
      requires StandsFor(all, s) && Known(s, id) && all[id] == req
      modifies this
      ensures byKey == Remove(old(byKey), req.key, req)
      ensures StandsFor(all, Next(s, Cancel(id)))
    {
      RemoveNamed(all, byKey, s.buckets, req.key, id);
      TakeOut(req);
    }

    /** The bucket part of `cancel` and of the second locked region of `try_match`. */
    method TakeOut(req: PendingRequest)
      modifies this
      ensures byKey == Remove(old(byKey), req.key, req)
    {
      if req.key in byKey && byKey[req.key] != [] {
        var rest := Without(byKey[req.key], req);
        byKey := if rest == [] then byKey - {req.key} else byKey[req.key := rest];
      }
    }

    /** The first locked region of `try_match`. */
    method TakeSnapshot(ev: Reply, ghost all: seq<PendingRequest>, ghost s: State) returns (cs: seq<PendingRequest>)
      requires StandsFor(all, s) && s.reader.Idle?
      ensures cs == Candidates(byKey, ev)
      ensures StandsFor(all, Next(s, Snapshot(ev))) && Names(all, cs, Next(s, Snapshot(ev)).reader.candidates)
    {
      CandidatesNamed(all, byKey, s.buckets, ev);
      cs := Candidates(byKey, ev);
    }

    /** What `try_match` does between its regions, without the lock: complete the first request that matches. */
    method Complete(cs: seq<PendingRequest>, ev: Reply, ghost all: seq<PendingRequest>, ghost s: State)
        returns (hit: Option<PendingRequest>)
      requires StandsFor(all, s) && s.reader.Trying? && s.reader.ev == ev && Names(all, cs, s.reader.candidates)
      modifies cs
      ensures StandsFor(all, Next(Next(s, StoreReply), SetDone))
      ensures var id := FirstMatch(s.requests, s.reader.candidates, ev);
              if id.None? then hit.None? else Known(s, id.value) && hit == Some(all[id.value])
    {
      var i := 0;
      while i < |cs|
        invariant 0 <= i <= |cs|
        invariant FirstMatch(s.requests, s.reader.candidates, ev) == FirstMatch(s.requests, s.reader.candidates[i..], ev)
      {
        var req := cs[i];
        assert req == all[s.reader.candidates[i]];
        if Matches(req.key, ev) {
          req.reply := Some(ev);
          req.done := true;
          return Some(req);
        }
        i := i + 1;
      }
      hit := None;
    }

    /** The second locked region. */
    method Finish(req: PendingRequest, ghost all: seq<PendingRequest>, ghost s: State)
      requires StandsFor(all, s) && s.reader.Removing? && Known(s, s.reader.id) && all[s.reader.id] == req
      modifies this
      ensures byKey == Remove(old(byKey), req.key, req)
      ensures StandsFor(all, Next(s, Unlist))
    {
      RemoveNamed(all, byKey, s.buckets, req.key, s.reader.id);
      TakeOut(req);
    }

    /** `try_match` undisturbed: exactly the machine's four steps, one after the other. */
    method TryMatch(ev: Reply, ghost all: seq<PendingRequest>, ghost s: State) returns (hit: Option<PendingRequest>)
      requires StandsFor(all, s) && s.reader.Idle?
      modifies this, Candidates(byKey, ev)
      ensures StandsFor(all, Next(Next(Next(Next(s, Snapshot(ev)), StoreReply), SetDone), Unlist))
      ensures hit.Some? <==> FirstMatch(s.requests, Candidates(s.buckets, ev), ev).Some?
    {
      var cs := TakeSnapshot(ev, all, s);
      ghost var trying := Next(s, Snapshot(ev));
      hit := Complete(cs, ev, all, trying);
      AfterCompletion(trying);
      if hit.Some? {
        Finish(hit.value, all, Next(Next(trying, StoreReply), SetDone));
      }
    }
  }
}
