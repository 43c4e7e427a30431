/** The ConfigMap of demo-token records, written by calls that read it, compute a merge patch and send it, with
    nothing to keep them apart. */
module TokenStore {
  import opened LabSessions

  /** body stands for every field of the record but the session id. */
  datatype Record = Record(body: string, sessionID: string)

  type Data = map<string, Record>

  function At(m: Data, k: string): Option<Record> {
    if k in m then Some(m[k]) else None
  }

  /** A merge patch of two copies of the data, applied to the current one: keys merge independently. */
  function MergeData(current: Data, before: Data, after: Data): Data {
    map k | k in current.Keys + after.Keys &&
            (if At(before, k) == At(after, k) then k in current else k in after) ::
      if At(before, k) == At(after, k) then current[k] else after[k]
  }

  /** A call between its read and its write. */
  datatype Call =
    | Creating(token: string, record: Record)
    | Writing(token: string, record: Record, base: Data)
    | Binding(token: string, sessionID: string, base: Data)

  /** cm is None until the ConfigMap exists.  sent and acked are history: the body each write was started with, and
      the tokens whose write returned without an error. */
  datatype World = World(cm: Option<Data>, calls: map<nat, Call>, sent: map<string, string>, acked: set<string>)

  /** Put's answer can be lost: the write lands but its caller sees an error. */
  datatype Action =
    | WriteGet(n: nat, token: string, record: Record)
    | BindGet(n: nat, token: string, sessionID: string)
    | Put(n: nat, lost: bool)
    | Drop(n: nat)

  /** writeTokenRecord up to its Create or Patch; each token is written by one call only. */
  function BeginWrite(w: World, n: nat, token: string, record: Record): World {
    if n in w.calls || token in w.sent then w
    else w.(calls := w.calls[n := WriteCall(w.cm, token, record)], sent := w.sent[token := record.body])
  }

  /** The write that follows what was read: a Create when there was nothing, a patch of it otherwise. */
  function WriteCall(read: Option<Data>, token: string, record: Record): Call {
    match read
    case None => Creating(token, record)
    case Some(data) => Writing(token, record, data)
  }

  /** patchDemoTokenSessionID up to its Patch. */
  function BeginBind(w: World, n: nat, token: string, sessionID: string): World {
    if n in w.calls || w.cm.None? || token !in w.cm.value then w
    else w.(calls := w.calls[n := Binding(token, sessionID, w.cm.value)])
  }

  function Ack(w: World, token: string, lost: bool): World {
    if lost then w else w.(acked := w.acked + {token})
  }

  function Send(w: World, call: Call, lost: bool): World {
    match call
    case Creating(token, record) =>
      if w.cm.Some? then w  // AlreadyExists
      else Ack(w.(cm := Some(map[token := record])), token, lost)
    case Writing(token, record, base) =>
      if w.cm.None? then w
      else Ack(w.(cm := Some(MergeData(w.cm.value, base, base[token := record]))), token, lost)
    case Binding(token, sessionID, base) =>
      if w.cm.None? || token !in base then w
      else w.(cm := Some(MergeData(w.cm.value, base, base[token := base[token].(sessionID := sessionID)])))
  }

  function Step(w: World, a: Action): World {
    match a
    case WriteGet(n, token, record) => BeginWrite(w, n, token, record)
    case BindGet(n, token, sessionID) => BeginBind(w, n, token, sessionID)
    case Put(n, lost) => if n in w.calls then Send(w.(calls := w.calls - {n}), w.calls[n], lost) else w
    case Drop(n) => w.(calls := w.calls - {n})
  }

  function Run(w: World, actions: seq<Action>): World
    decreases |actions|
  {
    if actions == [] then w else Run(Step(w, actions[0]), actions[1..])
  }

  // ---------------------------------------------------------------- what every run keeps

  /** Each record carries the body its one writer sent. */
  predicate Honest(data: Data, sent: map<string, string>) {
    forall k :: k in data ==> k in sent && data[k].body == sent[k]
  }

  predicate CallFits(w: World, call: Call) {
    match call
    case Creating(token, record) => token in w.sent && w.sent[token] == record.body
    case Writing(token, record, base) =>
      token in w.sent && w.sent[token] == record.body && Honest(base, w.sent) && w.cm.Some? && token !in base
    case Binding(token, _, base) => Honest(base, w.sent) && token in base && w.cm.Some? && token in w.cm.value
  }

  predicate Sound(w: World) {
    && (w.cm.Some? ==> Honest(w.cm.value, w.sent))
    && (forall k :: k in w.acked ==> w.cm.Some? && k in w.cm.value)
    && (forall n :: n in w.calls ==> CallFits(w, w.calls[n]))
  }

  /** A patch of one key leaves all the others as they are by now. */
  lemma MergeOneKey(current: Data, base: Data, k: string, r: Record)
    ensures var m := MergeData(current, base, base[k := r]);
            && (forall j :: j != k ==> At(m, j) == At(current, j))
            && At(m, k) == (if At(base, k) == Some(r) then At(current, k) else Some(r))
  {
  }

  lemma SendKeepsSound(w: World, call: Call, lost: bool)
    requires Sound(w) && CallFits(w, call)
    ensures Sound(Send(w, call, lost))
    ensures var cm := Send(w, call, lost).cm;
            w.cm.Some? ==> cm.Some? && w.cm.value.Keys <= cm.value.Keys
  {
    hide MergeData;
    match call
    case Writing(token, record, base) =>
      if w.cm.Some? {
        MergeOneKey(w.cm.value, base, token, record);
        KeysOfMerge(w.cm.value, base, token, record);
      }
    case Binding(token, sessionID, base) =>
      if w.cm.Some? && token in base {
        MergeOneKey(w.cm.value, base, token, base[token].(sessionID := sessionID));
        KeysOfMerge(w.cm.value, base, token, base[token].(sessionID := sessionID));
      }
    case Creating(_, _) =>
  }

  lemma KeysOfMerge(current: Data, base: Data, k: string, r: Record)
    ensures var m := MergeData(current, base, base[k := r]);
            current.Keys <= m.Keys <= current.Keys + {k}
    ensures At(base, k) != Some(r) || k in current ==> k in MergeData(current, base, base[k := r])
    ensures forall j :: j in MergeData(current, base, base[k := r]) ==>
              MergeData(current, base, base[k := r])[j] == if j == k && At(base, k) != Some(r) then r else current[j]
  {
  }

  lemma StepKeepsSound(w: World, a: Action)
    requires Sound(w)
    ensures Sound(Step(w, a))
    ensures var cm := Step(w, a).cm;
            w.cm.Some? ==> cm.Some? && w.cm.value.Keys <= cm.value.Keys
  {
    hide MergeData, Send;
    match a
    case Put(n, lost) =>
      if n in w.calls {
        SendKeepsSound(w.(calls := w.calls - {n}), w.calls[n], lost);
      }
    case WriteGet(n, token, record) =>
    case _ =>
  }

  /** Whatever the interleaving, a record whose write was acknowledged stays, and only its session id can change. */
  lemma {:induction false} AcknowledgedIsKept(w: World, actions: seq<Action>)
    requires Sound(w)
    ensures var w' := Run(w, actions);
            && Sound(w')
            && (forall k :: k in w.acked ==> w'.cm.Some? && k in w'.cm.value && k in w'.sent
                                             && w'.cm.value[k].body == w'.sent[k])
    ensures forall k :: k in w.sent ==> k in Run(w, actions).sent && Run(w, actions).sent[k] == w.sent[k]
    ensures w.acked <= Run(w, actions).acked
    decreases |actions|
  {
    hide Sound, Step;
    if actions != [] {
      StepKeepsSound(w, actions[0]);
      StepKeepsHistory(w, actions[0]);
      AcknowledgedIsKept(Step(w, actions[0]), actions[1..]);
    } else {
      SoundHolds(w);
    }
  }

  lemma SoundHolds(w: World)
    requires Sound(w)
    ensures forall k :: k in w.acked ==>
              w.cm.Some? && k in w.cm.value && k in w.sent && w.cm.value[k].body == w.sent[k]
  {
  }

  lemma StepKeepsHistory(w: World, a: Action)
    ensures forall k :: k in w.sent ==> k in Step(w, a).sent && Step(w, a).sent[k] == w.sent[k]
    ensures w.acked <= Step(w, a).acked
  {
    hide MergeData;
  }

  /** Nobody interfering, recording the session of a known token gives its record exactly that id, its body as it
      was, and leaves every other record alone. */
  lemma BindIsRecorded(w: World, n: nat, token: string, sessionID: string, lost: bool)
    requires w.cm.Some? && token in w.cm.value && n !in w.calls
    ensures var cm := Run(w, [BindGet(n, token, sessionID), Put(n, lost)]).cm;
            && cm.Some? && cm.value.Keys == w.cm.value.Keys
            && cm.value[token] == Record(w.cm.value[token].body, sessionID)
            && forall k :: k in cm.value && k != token ==> cm.value[k] == w.cm.value[k]
  {
    RunTwo(w, BindGet(n, token, sessionID), Put(n, lost));
  }

  /** Nobody interfering, a write leaves exactly its record under its token, is acknowledged, and leaves every other
      record alone. */
  lemma WriteIsRecorded(w: World, n: nat, token: string, record: Record)
    requires n !in w.calls && token !in w.sent
    ensures var w' := Run(w, [WriteGet(n, token, record), Put(n, false)]);
            && w'.cm.Some? && token in w'.acked
            && w'.cm.value.Keys == (if w.cm.Some? then w.cm.value.Keys else {}) + {token}
            && w'.cm.value[token] == record
            && forall k :: k in w'.cm.value && k != token ==> w'.cm.value[k] == w.cm.value[k]
  {
    RunTwo(w, WriteGet(n, token, record), Put(n, false));
  }

  lemma RunTwo(w: World, a: Action, b: Action)
    ensures Run(w, [a, b]) == Step(Step(w, a), b)
  {
    hide Step;
    assert [a, b][1..] == [b] && [b][1..] == [];
    assert Run(Step(w, a), [b]) == Run(Step(Step(w, a), b), []);
  }

  /** The very first writes can race: both see no ConfigMap, and the one whose Create comes second is told so
      instead of silently overwriting the other's record. */
  lemma RacingCreateIsRefused(w: World, m: nat, n: nat, lost: bool)
    requires w.cm.None? && m in w.calls && n in w.calls && m != n
    requires w.calls[m].Creating? && w.calls[n].Creating?
    requires w.calls[n].token !in w.acked && w.calls[m].token != w.calls[n].token
    ensures var w1 := Step(w, Put(m, lost));
            var w2 := Step(w1, Put(n, false));
            && w2.cm == w1.cm == Some(map[w.calls[m].token := w.calls[m].record])
            && w.calls[n].token !in w2.acked
  {
  }

  // ---------------------------------------------------------------- the calls themselves

  /** The ConfigMap at the API server. */
  class Store {
    var cm: Option<Data>

    method Create(data: Data, lost: bool) returns (ok: bool)
      modifies this
      ensures cm == (if old(cm).Some? then old(cm) else Some(data)) && ok == (old(cm).None? && !lost)
    {
      ok := cm.None? && !lost;
      if cm.None? {
        cm := Some(data);
      }
    }

    method Patch(before: Data, after: Data, lost: bool) returns (ok: bool)
      modifies this
      ensures old(cm).None? ==> cm.None? && !ok
      ensures old(cm).Some? ==> cm == Some(MergeData(old(cm).value, before, after)) && ok == !lost
    {
      ok := cm.Some? && !lost;
      if cm.Some? {
        cm := Some(MergeData(cm.value, before, after));
      }
    }

    /** Everyone else, between a call's read and its write. */
    method Meanwhile(others: Option<Data> -> Option<Data>)
      modifies this
      ensures cm == others(old(cm))
    {
      cm := others(cm);
    }
  }

  function Only(cm: Option<Data>): World {
    World(cm, map[], map[], {})
  }

  /** A key is there and holds what it does in one map exactly when it does in the other. */
  predicate Left(m: Data, now: Data, k: string) {
    (k in m <==> k in now) && (k in now ==> m[k] == now[k])
  }

  /** Every key but one is as the others left it. */
  ghost predicate OthersLeft(m: Data, now: Data, token: string) {
    forall k :: k != token ==> Left(m, now, k)
  }

  lemma Patched(now: Option<Data>, base: Data, token: string, record: Record)
    ensures now.Some? ==>
              var m := MergeData(now.value, base, base[token := record]);
              && OthersLeft(m, now.value, token)
              && if token in base && base[token] == record then Left(m, now.value, token)
                 else token in m && m[token] == record
  {
  }

  /** One write of a token's record is the step the runs above take for it. */
  method WriteTokenRecord(store: Store, token: string, record: Record, others: Option<Data> -> Option<Data>, lost: bool)
    returns (ok: bool)
    modifies store
    ensures var w := Send(Only(others(old(store.cm))), WriteCall(old(store.cm), token, record), lost);
            store.cm == w.cm && (ok <==> token in w.acked)
    ensures var read, now := old(store.cm), others(old(store.cm));
            if read.None? then
              store.cm == (if now.None? then Some(map[token := record]) else now) && ok == (now.None? && !lost)
            else if now.None? then store.cm == None && !ok
            else
              && ok == !lost && store.cm.Some? && OthersLeft(store.cm.value, now.value, token)
              && if token in read.value && read.value[token] == record then Left(store.cm.value, now.value, token)
                 else token in store.cm.value && store.cm.value[token] == record
  {
    hide MergeData, OthersLeft, Left;
    var read := store.cm;
    store.Meanwhile(others);
    if read.None? {
      ok := store.Create(map[token := record], lost);
      return;
    }
    var before := read.value;
    Patched(others(read), before, token, record);
    ok := store.Patch(before, before[token := record], lost);
  }

  /** Recording the session opened with a token, likewise; a token unknown when read is left alone. */
  method PatchSessionID(store: Store, token: string, sessionID: string,
                        others: Option<Data> -> Option<Data>, lost: bool)
    modifies store
    ensures old(store.cm).Some? ==>
              store.cm == Send(Only(others(old(store.cm))), Binding(token, sessionID, old(store.cm).value), lost).cm
    ensures old(store.cm).None? ==> store.cm == others(None)
    ensures var read, now := old(store.cm), others(old(store.cm));
            if read.None? || token !in read.value || now.None? then store.cm == now
            else
              && store.cm.Some? && OthersLeft(store.cm.value, now.value, token)
              && if read.value[token].sessionID == sessionID then Left(store.cm.value, now.value, token)
                 else token in store.cm.value && store.cm.value[token] == Record(read.value[token].body, sessionID)
  {
    hide MergeData, OthersLeft, Left;
    var read := store.cm;
    store.Meanwhile(others);
    if read.None? || token !in read.value {
      return;
    }
    var before := read.value;
    var record := before[token].(sessionID := sessionID);
    Patched(others(read), before, token, record);
    var _ := store.Patch(before, before[token := record], lost);
  }
}
