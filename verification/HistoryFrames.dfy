/**
 A history dump cut into frames by a byte budget: each message stripped of binary fields nobody reads, and each
 frame carrying, at its own expense, the names of the groups its messages are addressed to.
 */
module HistoryFrames {
  import opened Wrappers

  // ---- stripping ----

  datatype Value =
    | Scalar(text: string)             // null, numbers, booleans, strings, undefined
    | Binary(bytes: seq<nat>)
    | List(items: seq<Value>)
    | Record(fields: seq<Field>)       // in key order, as Object.entries lists them
  datatype Field = Field(key: string, value: Value)

  const STRIP_KEYS: set<string> := {
    "jpegThumbnail", "thumbnailSha256", "thumbnailEncSha256", "fileSha256", "fileEncSha256",
    "midQualityFileSha256", "mediaKey", "scansSidecar", "streamingSidecar", "firstFrameSidecar", "waveform",
    "futureproofBuffer", "messageSecret", "senderKeyHash", "recipientKeyHash", "deviceListMetadata",
    "initialHistBootstrapInlinePayload"
  }

  function Dropped(fields: seq<Field>): (r: seq<Field>)
    ensures forall f :: f in r <==> f in fields && f.key !in STRIP_KEYS
    ensures (forall f | f in fields :: f.key !in STRIP_KEYS) ==> r == fields
  {
    if fields == [] then []
    else
      assert fields == [fields[0]] + fields[1..];
      if fields[0].key in STRIP_KEYS then Dropped(fields[1..]) else [fields[0]] + Dropped(fields[1..])
  }

  function Strip(v: Value): Value {
    match v
    case List(items) => List(seq(|items|, i requires 0 <= i < |items| => Strip(items[i])))
    case Record(fields) =>
      var kept := Dropped(fields);
      Record(seq(|kept|, i requires 0 <= i < |kept| =>
        assert kept[i] in fields; Field(kept[i].key, Strip(kept[i].value))))
    case _ => v
  }

  // No field of that name at any depth, binary data being a leaf.
  predicate Clean(v: Value) {
    match v
    case List(items) => forall i | 0 <= i < |items| :: Clean(items[i])
    case Record(fields) => forall i | 0 <= i < |fields| :: fields[i].key !in STRIP_KEYS && Clean(fields[i].value)
    case _ => true
  }

  /** Stripping leaves no such field anywhere, and takes nothing from a payload that has none. */
  lemma {:induction false} StripCleans(v: Value)
    ensures Clean(Strip(v))
    decreases v
  {
    match v {
      case List(items) =>
        forall i | 0 <= i < |items|
          ensures Clean(Strip(items[i]))
        {
          StripCleans(items[i]);
        }
      case Record(fields) =>
        var kept := Dropped(fields);
        forall i | 0 <= i < |kept|
          ensures kept[i].key !in STRIP_KEYS && Clean(Strip(kept[i].value))
        {
          assert kept[i] in kept && kept[i] in fields;
          StripCleans(kept[i].value);
        }
      case Scalar(_) =>
      case Binary(_) =>
    }
  }

  lemma {:induction false} CleanIsUntouched(v: Value)
    requires Clean(v)
    ensures Strip(v) == v
    decreases v
  {
    match v {
      case List(items) =>
        forall i | 0 <= i < |items|
          ensures Strip(items[i]) == items[i]
        {
          CleanIsUntouched(items[i]);
        }
      case Record(fields) =>
        assert Dropped(fields) == fields;
        forall i | 0 <= i < |fields|
          ensures Strip(fields[i].value) == fields[i].value
        {
          CleanIsUntouched(fields[i].value);
        }
        assert Strip(v).fields == fields;
      case Scalar(_) =>
      case Binary(_) =>
    }
  }

  lemma StripTwice(v: Value)
    ensures Strip(Strip(v)) == Strip(v)
  {
  }

  // ---- what a frame costs ----

  function FieldIn(fields: seq<Field>, key: string): Option<Value> {
    if fields == [] then None
    else if fields[0].key == key then Some(fields[0].value)
    else FieldIn(fields[1..], key)
  }

  function FieldOf(v: Value, key: string): Option<Value> {
    if v.Record? then FieldIn(v.fields, key) else None
  }

  // A place inside a payload.
  datatype Place = At(key: string) | Item(index: nat)

  function Reach(v: Value, path: seq<Place>): Option<Value>
    decreases |path|
  {
    if path == [] then Some(v)
    else
      match path[0]
      case At(key) =>
        var field := FieldOf(v, key);
        if field.None? then None else Reach(field.value, path[1..])
      case Item(index) =>
        if v.List? && index < |v.items| then Reach(v.items[index], path[1..]) else None
  }

  /** A field is found by its key, the first of several, and only there. */
  lemma {:induction false} FieldIsFound(before: seq<Field>, key: string, v: Value, after: seq<Field>)
    requires forall f | f in before :: f.key != key
    ensures FieldOf(Record(before + [Field(key, v)] + after), key) == Some(v)
    ensures FieldOf(Record(before), key) == None
    decreases |before|
  {
    var all := before + [Field(key, v)] + after;
    if before != [] {
      assert before[0] in before && forall f | f in before[1..] :: f in before;
      assert all[1..] == before[1..] + [Field(key, v)] + after;
      FieldIsFound(before[1..], key, v, after);
    }
  }

  lemma ReachGoesIn(v: Value, key: string, index: nat, path: seq<Place>)
    ensures Reach(v, []) == Some(v)
    ensures FieldOf(v, key).Some? ==> Reach(v, [At(key)] + path) == Reach(FieldOf(v, key).value, path)
    ensures v.List? && index < |v.items| ==> Reach(v, [Item(index)] + path) == Reach(v.items[index], path)
  {
    assert ([At(key)] + path)[1..] == path && ([Item(index)] + path)[1..] == path;
  }

  function Stripped(v: Option<Value>): Option<Value> {
    if v.None? then None else Some(Strip(v.value))
  }

  lemma {:induction false} DroppedKeepsFields(fields: seq<Field>, key: string)
    requires key !in STRIP_KEYS
    ensures FieldIn(Dropped(fields), key) == FieldIn(fields, key)
  {
    if fields != [] {
      DroppedKeepsFields(fields[1..], key);
    }
  }

  lemma {:induction false} FieldOfEach(before: seq<Field>, after: seq<Field>, key: string)
    requires |before| == |after|
    requires forall i | 0 <= i < |before| :: after[i] == Field(before[i].key, Strip(before[i].value))
    ensures FieldIn(after, key) == Stripped(FieldIn(before, key))
  {
    if before != [] {
      FieldOfEach(before[1..], after[1..], key);
    }
  }

  lemma FieldIsStripped(v: Value, key: string)
    requires key !in STRIP_KEYS
    ensures FieldOf(Strip(v), key) == Stripped(FieldOf(v, key))
  {
    if v.Record? {
      DroppedKeepsFields(v.fields, key);
      FieldOfEach(Dropped(v.fields), Strip(v).fields, key);
    }
  }

  /**
   And it takes nothing else: at every place whose keys are all kept there is afterwards what was there before,
   stripped in its turn, and nothing where nothing was. Text, numbers and binary data are as they were.
   */
  lemma {:induction false} StripKeepsTheRest(v: Value, path: seq<Place>)
    requires forall p | p in path && p.At? :: p.key !in STRIP_KEYS
    ensures Reach(Strip(v), path) == Stripped(Reach(v, path))
    ensures Reach(v, path).Some? && (Reach(v, path).value.Scalar? || Reach(v, path).value.Binary?) ==>
              Reach(Strip(v), path) == Reach(v, path)
    decreases |path|
  {
    if path != [] {
      assert path[0] in path && forall p | p in path[1..] :: p in path;
      match path[0] {
        case At(key) =>
          FieldIsStripped(v, key);
          if FieldOf(v, key).Some? {
            StripKeepsTheRest(FieldOf(v, key).value, path[1..]);
          }
        case Item(index) =>
          if v.List? && index < |v.items| {
            StripKeepsTheRest(v.items[index], path[1..]);
          }
      }
    }
  }

  type Names = map<string, string>

  // The byte sizes of a serialized message and of one name entry stay a parameter.
  datatype Budget = Budget(maxBytes: int, messageBytes: Value -> nat, entryBytes: (string, string) -> nat, names: Names)

  // A stripped message with the named group it is addressed to, if any.
  datatype Labelled = Labelled(message: Value, group: Option<string>)

  function NameOf(group: string, b: Budget): string {
    if group in b.names then b.names[group] else ""
  }

  function GroupOf(m: Labelled): set<string> {
    if m.group.Some? then {m.group.value} else {}
  }

  function Groups(ms: seq<Labelled>): set<string> {
    set i | 0 <= i < |ms| && ms[i].group.Some? :: ms[i].group.value
  }

  function NamesOf(ms: seq<Labelled>, b: Budget): Names {
    map g | g in Groups(ms) :: NameOf(g, b)
  }

  function Cost(m: Labelled, carried: set<string>, b: Budget): nat {
    b.messageBytes(m.message)
    + if m.group.Some? && m.group.value !in carried then b.entryBytes(m.group.value, NameOf(m.group.value, b)) else 0
  }

  // With the names of `carried` already paid for.
  function ChargeFrom(ms: seq<Labelled>, carried: set<string>, b: Budget): nat {
    if ms == [] then 0 else Cost(ms[0], carried, b) + ChargeFrom(ms[1..], carried + GroupOf(ms[0]), b)
  }

  // The messages, and one entry per distinct named group.
  function Charge(ms: seq<Labelled>, b: Budget): nat {
    ChargeFrom(ms, {}, b)
  }

  lemma GroupsCons(ms: seq<Labelled>)
    requires ms != []
    ensures Groups(ms) == GroupOf(ms[0]) + Groups(ms[1..])
  {
  }

  lemma GroupsSnoc(ms: seq<Labelled>, m: Labelled)
    ensures Groups(ms + [m]) == Groups(ms) + GroupOf(m)
  {
    var all := ms + [m];
    forall g
      ensures g in Groups(all) <==> g in Groups(ms) + GroupOf(m)
    {
      if g in Groups(ms) {
        var i :| 0 <= i < |ms| && ms[i].group == Some(g);
        assert all[i] == ms[i];
      }
      assert all[|ms|] == m;
    }
  }

  lemma {:induction false} ChargeSnocFrom(ms: seq<Labelled>, m: Labelled, carried: set<string>, b: Budget)
    ensures ChargeFrom(ms + [m], carried, b) == ChargeFrom(ms, carried, b) + Cost(m, carried + Groups(ms), b)
    decreases |ms|
  {
    var all := ms + [m];
    if ms == [] {
      assert all[1..] == [] && Groups(ms) == {} && carried + {} == carried;
    } else {
      assert all[1..] == ms[1..] + [m];
      ChargeSnocFrom(ms[1..], m, carried + GroupOf(ms[0]), b);
      GroupsCons(ms);
      assert carried + GroupOf(ms[0]) + Groups(ms[1..]) == carried + Groups(ms);
    }
  }

  lemma ChargeSnoc(ms: seq<Labelled>, m: Labelled, b: Budget)
    ensures Charge(ms + [m], b) == Charge(ms, b) + Cost(m, Groups(ms), b)
  {
    ChargeSnocFrom(ms, m, {}, b);
    assert {} + Groups(ms) == Groups(ms);
  }

  // A frame may hold one message whatever it weighs; otherwise it must fit.
  predicate HasRoom(ms: seq<Labelled>, b: Budget) {
    |ms| <= 1 || Charge(ms, b) <= b.maxBytes
  }

  lemma {:induction false} PrefixCostsLess(ms: seq<Labelled>, k: nat, b: Budget)
    requires k <= |ms|
    ensures Charge(ms[..k], b) <= Charge(ms, b)
    decreases |ms|
  {
    if k == |ms| {
      assert ms[..k] == ms;
    } else {
      var init := ms[..|ms| - 1];
      assert ms == init + [ms[|ms| - 1]] && init[..k] == ms[..k];
      ChargeSnoc(init, ms[|ms| - 1], b);
      PrefixCostsLess(init, k, b);
    }
  }

  // A name paid for beforehand saves at most its own entry.
  lemma {:induction false} CarriedSavesItsEntry(ms: seq<Labelled>, carried: set<string>, group: string, b: Budget)
    ensures ChargeFrom(ms, carried, b) <= ChargeFrom(ms, carried + {group}, b) + b.entryBytes(group, NameOf(group, b))
  {
    if ms != [] {
      if ms[0].group == Some(group) {
        assert carried + {group} + GroupOf(ms[0]) == carried + GroupOf(ms[0]);
      } else {
        CarriedSavesItsEntry(ms[1..], carried + GroupOf(ms[0]), group, b);
        assert carried + {group} + GroupOf(ms[0]) == carried + GroupOf(ms[0]) + {group};
      }
    }
  }

  lemma TailCostsLess(ms: seq<Labelled>, b: Budget)
    requires ms != []
    ensures Charge(ms[1..], b) <= Charge(ms, b)
  {
    assert {} + GroupOf(ms[0]) == GroupOf(ms[0]);
    if ms[0].group.Some? {
      CarriedSavesItsEntry(ms[1..], {}, ms[0].group.value, b);
    }
  }

  lemma {:induction false} SuffixCostsLess(ms: seq<Labelled>, k: nat, b: Budget)
    requires k <= |ms|
    ensures Charge(ms[k..], b) <= Charge(ms, b)
    decreases k
  {
    if k == 0 {
      assert ms[0..] == ms;
    } else {
      SuffixCostsLess(ms[1..], k - 1, b);
      assert ms[1..][k - 1..] == ms[k..];
      TailCostsLess(ms, b);
    }
  }

  // ---- greedy cutting ----

  // How many messages the first frame takes.
  function FirstCut(ms: seq<Labelled>, k: nat, b: Budget): (n: nat)
    requires 1 <= k <= |ms| && HasRoom(ms[..k], b)
    ensures k <= n <= |ms| && HasRoom(ms[..n], b)
    ensures n < |ms| ==> !HasRoom(ms[..n + 1], b)
    decreases |ms| - k
  {
    if k == |ms| || !HasRoom(ms[..k + 1], b) then k else FirstCut(ms, k + 1, b)
  }

  function Frames(ms: seq<Labelled>, b: Budget): seq<seq<Labelled>>
    decreases |ms|
  {
    if ms == [] then [] else
      var n := FirstCut(ms, 1, b);
      [ms[..n]] + Frames(ms[n..], b)
  }

  function Joined(fs: seq<seq<Labelled>>): seq<Labelled> {
    if fs == [] then [] else fs[0] + Joined(fs[1..])
  }

  // Any way at all of cutting the dump into frames that may be sent.
  ghost predicate Sendable(fs: seq<seq<Labelled>>, b: Budget) {
    forall i | 0 <= i < |fs| :: fs[i] != [] && HasRoom(fs[i], b)
  }

  lemma JoinedCons(f: seq<Labelled>, fs: seq<seq<Labelled>>, b: Budget)
    ensures Joined([f] + fs) == f + Joined(fs)
    ensures f != [] && HasRoom(f, b) && Sendable(fs, b) ==> Sendable([f] + fs, b)
  {
  }

  /** The frames are non-empty and within budget or alone, nothing is lost, reordered or repeated between them. */
  lemma {:induction false} FramesConserve(ms: seq<Labelled>, b: Budget)
    ensures Joined(Frames(ms, b)) == ms && Sendable(Frames(ms, b), b)
    decreases |ms|
  {
    if ms != [] {
      var n := FirstCut(ms, 1, b);
      FramesConserve(ms[n..], b);
      JoinedCons(ms[..n], Frames(ms[n..], b), b);
      assert ms == ms[..n] + ms[n..];
    }
  }

  /** Every cut is forced: the message that opens the next frame did not fit the one before. */
  lemma {:induction false} CutsAreForced(ms: seq<Labelled>, b: Budget, i: nat)
    requires i + 1 < |Frames(ms, b)|
    ensures Frames(ms, b)[i + 1] != [] && !HasRoom(Frames(ms, b)[i] + [Frames(ms, b)[i + 1][0]], b)
    decreases |ms|
  {
    var n := FirstCut(ms, 1, b);
    var rest := Frames(ms[n..], b);
    assert Frames(ms, b) == [ms[..n]] + rest;
    if i == 0 {
      assert rest[0] == ms[n..][..FirstCut(ms[n..], 1, b)];
      assert ms[..n] + [rest[0][0]] == ms[..n + 1];
    } else {
      CutsAreForced(ms[n..], b, i - 1);
    }
  }

  lemma RoomOfPart(f: seq<Labelled>, k: nat, b: Budget)
    requires k <= |f| && HasRoom(f, b)
    ensures HasRoom(f[k..], b) && HasRoom(f[..k], b)
  {
    SuffixCostsLess(f, k, b);
    PrefixCostsLess(f, k, b);
  }

  // The greedy first frame is at least as long as any sendable prefix.
  lemma FirstCutIsLongest(ms: seq<Labelled>, p: nat, b: Budget)
    requires 1 <= p <= |ms| && HasRoom(ms[..p], b)
    ensures p <= FirstCut(ms, 1, b)
  {
    var n := FirstCut(ms, 1, b);
    var k := if n + 1 <= p then n + 1 else p;
    assert ms[..p][..k] == ms[..k];
    RoomOfPart(ms[..p], k, b);
  }

  // f ends inside `ms`: it is what was behind and a first part of ms.
  lemma FrontTaken(f: seq<Labelled>, rest: seq<Labelled>, behind: seq<Labelled>, ms: seq<Labelled>)
    requires f + rest == behind + ms && |f| > |behind|
    ensures var p := |f| - |behind|; p <= |ms| && f[|behind|..] == ms[..p] && rest == ms[p..]
  {
    var all := behind + ms;
    assert all[..|f|] == f && all[|f|..] == rest;
    assert f[|behind|..] == all[|behind|..|f|] && all[|behind|..] == ms;
    assert all[|behind|..|f|] == ms[..|f| - |behind|];
  }

  // f ends inside what was behind.
  lemma BackTaken(f: seq<Labelled>, rest: seq<Labelled>, behind: seq<Labelled>, ms: seq<Labelled>)
    requires f + rest == behind + ms && |f| <= |behind|
    ensures rest == behind[|f|..] + ms
  {
    var all := behind + ms;
    assert all[|f|..] == rest && all[|f|..] == behind[|f|..] + ms;
  }

  /**
   No way of cutting the same messages in the same order needs fewer frames, even one that still has `behind`
   messages to send first.
   */
  lemma {:induction false} FewestFramesFrom(behind: seq<Labelled>, ms: seq<Labelled>,
                                            other: seq<seq<Labelled>>, b: Budget)
    requires Sendable(other, b) && Joined(other) == behind + ms
    ensures |Frames(ms, b)| <= |other|
    decreases |other|
  {
    if ms != [] {
      var f, rest := other[0], other[1..];
      assert forall i | 0 <= i < |rest| :: rest[i] == other[i + 1];
      assert f + Joined(rest) == behind + ms;
      if |f| <= |behind| {
        BackTaken(f, Joined(rest), behind, ms);
        FewestFramesFrom(behind[|f|..], ms, rest, b);
      } else {
        var p, n := |f| - |behind|, FirstCut(ms, 1, b);
        FrontTaken(f, Joined(rest), behind, ms);
        RoomOfPart(f, |behind|, b);
        FirstCutIsLongest(ms, p, b);
        assert ms[p..] == ms[p..n] + ms[n..];
        FewestFramesFrom(ms[p..n], ms[n..], rest, b);
      }
    }
  }

  lemma FewestFrames(ms: seq<Labelled>, other: seq<seq<Labelled>>, b: Budget)
    requires Sendable(other, b) && Joined(other) == ms
    ensures |Frames(ms, b)| <= |other|
  {
    assert [] + ms == ms;
    FewestFramesFrom([], ms, other, b);
  }

  // ---- the generator ----

  datatype Frame = Frame(messages: seq<Value>, groupNames: Names)

  function RemoteJid(v: Value): Option<string> {
    match FieldOf(v, "key")
    case None => None
    case Some(key) =>
      match FieldOf(key, "remoteJid")
      case Some(Scalar(jid)) => if jid == "" then None else Some(jid)
      case _ => None
  }

  // The message as it is framed; an empty name counts as none.
  function LabelOf(v: Value, names: Names): Labelled {
    var stripped := Strip(v);
    var jid := RemoteJid(stripped);
    if jid.Some? && jid.value in names && names[jid.value] != ""
    then Labelled(stripped, jid) else Labelled(stripped, None)
  }

  function LabelAll(vs: seq<Value>, names: Names): seq<Labelled> {
    seq(|vs|, i requires 0 <= i < |vs| => LabelOf(vs[i], names))
  }

  function FrameOf(ms: seq<Labelled>, b: Budget): Frame {
    Frame(seq(|ms|, i requires 0 <= i < |ms| => ms[i].message), NamesOf(ms, b))
  }

  function FramesOf(fs: seq<seq<Labelled>>, b: Budget): seq<Frame> {
    seq(|fs|, i requires 0 <= i < |fs| => FrameOf(fs[i], b))
  }

  // ---- what a frame carries, on the messages themselves ----

  // The message names a chat in its key.
  predicate AddressedTo(v: Value, jid: string) {
    var key := FieldOf(v, "key");
    jid != "" && key.Some? && FieldOf(key.value, "remoteJid") == Some(Scalar(jid))
  }

  /** Stripping does not touch where a message is addressed to. */
  lemma StripKeepsTheAddress(v: Value, jid: string)
    ensures AddressedTo(Strip(v), jid) <==> AddressedTo(v, jid)
  {
    FieldIsStripped(v, "key");
    if FieldOf(v, "key").Some? {
      FieldIsStripped(FieldOf(v, "key").value, "remoteJid");
    }
  }

  // The chats these messages are addressed to that have a name, each with it.
  ghost function NamesFor(messages: seq<Value>, names: Names): Names {
    map jid | jid in names && names[jid] != "" && (exists m :: m in messages && AddressedTo(m, jid)) :: names[jid]
  }

  function Bytes(messages: seq<Value>, b: Budget): nat {
    if messages == [] then 0 else b.messageBytes(messages[0]) + Bytes(messages[1..], b)
  }

  // One entry for each of these chats.
  ghost function EntryBytes(jids: set<string>, b: Budget): nat {
    if jids == {} then 0
    else
      var jid :| jid in jids;
      b.entryBytes(jid, NameOf(jid, b)) + EntryBytes(jids - {jid}, b)
  }

  // What messages framed together weigh: their bytes, and one entry per chat with a name.
  ghost function Weight(messages: seq<Value>, b: Budget): nat {
    Bytes(messages, b) + EntryBytes(NamesFor(messages, b.names).Keys, b)
  }

  lemma {:induction false} OneMoreEntry(jids: set<string>, jid: string, b: Budget)
    requires jid !in jids
    ensures EntryBytes(jids + {jid}, b) == b.entryBytes(jid, NameOf(jid, b)) + EntryBytes(jids, b)
    decreases |jids|
  {
    var all := jids + {jid};
    var x :| x in all && EntryBytes(all, b) == b.entryBytes(x, NameOf(x, b)) + EntryBytes(all - {x}, b);
    if x == jid {
      assert all - {x} == jids;
    } else {
      assert all - {x} == (jids - {x}) + {jid} && jids == (jids - {x}) + {x};
      OneMoreEntry(jids - {x}, jid, b);
      OneMoreEntry(jids - {x}, x, b);
    }
  }

  lemma {:induction false} BytesSnoc(messages: seq<Value>, m: Value, b: Budget)
    ensures Bytes(messages + [m], b) == Bytes(messages, b) + b.messageBytes(m)
  {
    var all := messages + [m];
    if messages == [] {
      assert all[1..] == [];
    } else {
      assert all[1..] == messages[1..] + [m];
      BytesSnoc(messages[1..], m, b);
    }
  }

  // The label says what the message says.
  ghost predicate IsLabelled(m: Labelled, b: Budget) {
    forall jid :: m.group == Some(jid) <==> AddressedTo(m.message, jid) && jid in b.names && b.names[jid] != ""
  }

  lemma LabelsAreRight(v: Value, b: Budget)
    ensures IsLabelled(LabelOf(v, b.names), b) && LabelOf(v, b.names).message == Strip(v)
  {
    var stripped := Strip(v);
    assert forall jid :: AddressedTo(stripped, jid) <==> RemoteJid(stripped) == Some(jid);
  }

  lemma NamesAreRight(ms: seq<Labelled>, b: Budget)
    requires forall m | m in ms :: IsLabelled(m, b)
    ensures NamesOf(ms, b) == NamesFor(FrameOf(ms, b).messages, b.names)
  {
    var messages := FrameOf(ms, b).messages;
    forall jid
      ensures jid in Groups(ms) <==> jid in NamesFor(messages, b.names)
    {
      if jid in Groups(ms) {
        var i :| 0 <= i < |ms| && ms[i].group == Some(jid);
        assert IsLabelled(ms[i], b) && messages[i] in messages;
      }
      if jid in NamesFor(messages, b.names) {
        var i :| 0 <= i < |messages| && AddressedTo(messages[i], jid);
        assert IsLabelled(ms[i], b) && ms[i].group == Some(jid);
      }
    }
  }

  lemma {:induction false} ChargeIsWeight(ms: seq<Labelled>, b: Budget)
    requires forall m | m in ms :: IsLabelled(m, b)
    ensures Charge(ms, b) == Bytes(FrameOf(ms, b).messages, b) + EntryBytes(Groups(ms), b)
    ensures Charge(ms, b) == Weight(FrameOf(ms, b).messages, b)
    decreases |ms|
  {
    if ms == [] {
      assert Groups(ms) == {};
    } else {
      var init, m := ms[..|ms| - 1], ms[|ms| - 1];
      assert ms == init + [m];
      ChargeIsWeight(init, b);
      ChargeSnoc(init, m, b);
      GroupsSnoc(init, m);
      assert FrameOf(ms, b).messages == FrameOf(init, b).messages + [m.message];
      BytesSnoc(FrameOf(init, b).messages, m.message, b);
      if m.group.Some? && m.group.value !in Groups(init) {
        OneMoreEntry(Groups(init), m.group.value, b);
      } else {
        assert Groups(ms) == Groups(init);
      }
    }
    NamesAreRight(ms, b);
    assert Groups(ms) == NamesOf(ms, b).Keys;
  }

  lemma {:induction false} OfTheDump(fs: seq<seq<Labelled>>, k: nat)
    requires k < |fs|
    ensures forall m | m in fs[k] :: m in Joined(fs)
  {
    if k > 0 {
      OfTheDump(fs[1..], k - 1);
    }
  }

  // Frames of a dump, in terms of nothing but its messages and the names at hand.
  ghost predicate IsFraming(messages: seq<Value>, frames: seq<Frame>, b: Budget) {
    && Sent(frames) == seq(|messages|, i requires 0 <= i < |messages| => Strip(messages[i]))
    && (forall k | 0 <= k < |frames| ::
          && frames[k].messages != [] && frames[k].groupNames == NamesFor(frames[k].messages, b.names)
          && (|frames[k].messages| == 1 || Weight(frames[k].messages, b) <= b.maxBytes))
    && (forall k, next | 0 <= k < next < |frames| && next == k + 1 ::
          Weight(frames[k].messages + [frames[next].messages[0]], b) > b.maxBytes)
  }

  lemma CutIsHeavy(all: seq<Labelled>, k: nat, b: Budget)
    requires k + 1 < |Frames(all, b)| && forall m | m in all :: IsLabelled(m, b)
    ensures var fs := FramesOf(Frames(all, b), b);
            fs[k + 1].messages != [] && Weight(fs[k].messages + [fs[k + 1].messages[0]], b) > b.maxBytes
  {
    var frames := Frames(all, b);
    FramesConserve(all, b);
    CutsAreForced(all, b, k);
    OfTheDump(frames, k);
    OfTheDump(frames, k + 1);
    var m := frames[k + 1][0];
    assert m in frames[k + 1];
    ChargeIsWeight(frames[k] + [m], b);
    assert FrameOf(frames[k] + [m], b).messages == FrameOf(frames[k], b).messages + [m.message];
  }

  /**
   The frames carry the stripped dump, each message once and in order; each frame has exactly the names of the
   chats its own messages are addressed to and is within the budget, those names included, unless it is a single
   message; and the message that opens a frame would have made the one before too heavy, its name included.
   */
  lemma FramesAreAFraming(messages: seq<Value>, b: Budget)
    ensures IsFraming(messages, FramesOf(Frames(LabelAll(messages, b.names), b), b), b)
  {
    var all := LabelAll(messages, b.names);
    var frames := Frames(all, b);
    var fs := FramesOf(frames, b);
    EverythingIsSent(messages, b);
    FramesConserve(all, b);
    forall m | m in all
      ensures IsLabelled(m, b)
    {
      var i :| 0 <= i < |all| && all[i] == m;
      LabelsAreRight(messages[i], b);
    }
    forall k | 0 <= k < |fs|
      ensures fs[k].messages != [] && fs[k].groupNames == NamesFor(fs[k].messages, b.names)
      ensures |fs[k].messages| == 1 || Weight(fs[k].messages, b) <= b.maxBytes
    {
      OfTheDump(frames, k);
      NamesAreRight(frames[k], b);
      ChargeIsWeight(frames[k], b);
    }
    forall k, next | 0 <= k < next < |fs| && next == k + 1
      ensures fs[next].messages != [] && Weight(fs[k].messages + [fs[next].messages[0]], b) > b.maxBytes
    {
      CutIsHeavy(all, k, b);
    }
  }

  // With the open frame full, its cut comes exactly here.
  lemma CutHere(open: seq<Labelled>, m: Labelled, rest: seq<Labelled>, b: Budget)
    requires open != [] && HasRoom(open, b) && !HasRoom(open + [m], b)
    ensures Frames(open + ([m] + rest), b) == [open] + Frames([m] + rest, b)
  {
    var ms := open + ([m] + rest);
    var n := FirstCut(ms, 1, b);
    assert ms[..|open|] == open && ms[..|open| + 1] == open + [m] && ms[|open|..] == [m] + rest;
    FirstCutIsLongest(ms, |open|, b);
    var k := if n > |open| then |open| + 1 else n;
    assert ms[..n][..k] == ms[..k];
    RoomOfPart(ms[..n], k, b);
  }

  lemma LastFrame(open: seq<Labelled>, b: Budget)
    requires open != [] && HasRoom(open, b)
    ensures Frames(open, b) == [open]
  {
    assert open[..|open|] == open;
    FirstCutIsLongest(open, |open|, b);
    assert open[|open|..] == [];
  }

  function With(framed: Names, m: Labelled, b: Budget): Names {
    if m.group.Some? then framed[m.group.value := NameOf(m.group.value, b)] else framed
  }

  lemma FrameSnoc(open: seq<Labelled>, m: Labelled, b: Budget)
    ensures FrameOf(open + [m], b) == Frame(FrameOf(open, b).messages + [m.message], With(NamesOf(open, b), m, b))
  {
    GroupsSnoc(open, m);
  }

  lemma FramesSnoc(sent: seq<seq<Labelled>>, f: seq<Labelled>, b: Budget)
    ensures FramesOf(sent + [f], b) == FramesOf(sent, b) + [FrameOf(f, b)]
  {
  }

  // The loop's invariant: `sent` has been yielded, `open` is the frame being filled, `left` is still to come.
  ghost predicate Filling(all: seq<Labelled>, sent: seq<seq<Labelled>>, open: seq<Labelled>,
                          left: seq<Labelled>, b: Budget) {
    HasRoom(open, b) && Frames(all, b) == sent + Frames(open + left, b)
  }

  lemma Keep(all: seq<Labelled>, sent: seq<seq<Labelled>>, open: seq<Labelled>, m: Labelled,
             left: seq<Labelled>, b: Budget)
    requires Filling(all, sent, open, [m] + left, b) && HasRoom(open + [m], b)
    ensures Filling(all, sent, open + [m], left, b)
  {
    assert open + ([m] + left) == (open + [m]) + left;
  }

  lemma CutFrame(all: seq<Labelled>, sent: seq<seq<Labelled>>, open: seq<Labelled>, m: Labelled,
                 left: seq<Labelled>, b: Budget)
    requires Filling(all, sent, open, [m] + left, b) && open != [] && !HasRoom(open + [m], b)
    ensures Filling(all, sent + [open], [m], left, b)
  {
    CutHere(open, m, left, b);
    assert sent + ([open] + Frames([m] + left, b)) == (sent + [open]) + Frames([m] + left, b);
  }

  // What the loop keeps about its three locals.
  ghost predicate Open(open: seq<Labelled>, frame: seq<Value>, framed: Names, frameBytes: int, b: Budget) {
    FrameOf(open, b) == Frame(frame, framed) && frameBytes == Charge(open, b)
  }

  lemma OpenSnoc(open: seq<Labelled>, m: Labelled, frame: seq<Value>, framed: Names, frameBytes: int, b: Budget)
    requires Open(open, frame, framed, frameBytes, b)
    ensures |open| == |frame| && Cost(m, framed.Keys, b) == Cost(m, Groups(open), b)
    ensures Open(open + [m], frame + [m.message], With(framed, m, b), frameBytes + Cost(m, framed.Keys, b), b)
  {
    assert framed == NamesOf(open, b) && framed.Keys == Groups(open);
    FrameSnoc(open, m, b);
    ChargeSnoc(open, m, b);
  }

  // The whole loop invariant, and the two turns the loop can take.
  ghost predicate Framing(all: seq<Labelled>, sent: seq<seq<Labelled>>, open: seq<Labelled>, left: seq<Labelled>,
                          yielded: seq<Frame>, frame: seq<Value>, framed: Names, frameBytes: int, b: Budget) {
    Filling(all, sent, open, left, b) && Open(open, frame, framed, frameBytes, b) && yielded == FramesOf(sent, b)
  }

  lemma TurnKeep(all: seq<Labelled>, sent: seq<seq<Labelled>>, open: seq<Labelled>, left: seq<Labelled>,
                 yielded: seq<Frame>,
                 frame: seq<Value>, framed: Names, frameBytes: int, b: Budget)
    requires Framing(all, sent, open, left, yielded, frame, framed, frameBytes, b) && left != []
    requires frame == [] || frameBytes + Cost(left[0], framed.Keys, b) <= b.maxBytes
    ensures Framing(all, sent, open + [left[0]], left[1..], yielded, frame + [left[0].message],
                    With(framed, left[0], b),
                    frameBytes + Cost(left[0], framed.Keys, b), b)
  {
    assert left == [left[0]] + left[1..];
    OpenSnoc(open, left[0], frame, framed, frameBytes, b);
    Keep(all, sent, open, left[0], left[1..], b);
  }

  lemma TurnCut(all: seq<Labelled>, sent: seq<seq<Labelled>>, open: seq<Labelled>, left: seq<Labelled>,
                yielded: seq<Frame>,
                frame: seq<Value>, framed: Names, frameBytes: int, b: Budget)
    requires Framing(all, sent, open, left, yielded, frame, framed, frameBytes, b) && left != []
    requires frame != [] && frameBytes + Cost(left[0], framed.Keys, b) > b.maxBytes
    ensures Framing(all, sent + [open], [], left, yielded + [Frame(frame, framed)], [], map[], 0, b)
  {
    var m, rest := left[0], left[1..];
    assert left == [m] + rest && [] + left == left;
    OpenSnoc(open, m, frame, framed, frameBytes, b);
    CutFrame(all, sent, open, m, rest, b);
    FramesSnoc(sent, open, b);
  }

  lemma TurnEnd(all: seq<Labelled>, sent: seq<seq<Labelled>>, open: seq<Labelled>, yielded: seq<Frame>,
                frame: seq<Value>, framed: Names, frameBytes: int, b: Budget)
    requires Framing(all, sent, open, [], yielded, frame, framed, frameBytes, b)
    ensures FramesOf(Frames(all, b), b) == if frame == [] then yielded else yielded + [Frame(frame, framed)]
  {
    assert open + [] == open && |frame| == |open|;
    if open != [] {
      LastFrame(open, b);
      FramesSnoc(sent, open, b);
    } else {
      assert sent + [] == sent;
    }
  }

  /** The frames the generator yields, in order. */
  method HistoryFrames(messages: seq<Value>, b: Budget) returns (yielded: seq<Frame>)
    ensures yielded == FramesOf(Frames(LabelAll(messages, b.names), b), b)
    ensures IsFraming(messages, yielded, b)
  {
    yielded := [];
    var frame: seq<Value> := [];
    var framed: Names := map[];
    var frameBytes := 0;
    ghost var all := LabelAll(messages, b.names);
    ghost var open, sent, left := [], [], all;
    assert [] + all == all;
    for i := 0 to |messages|
      invariant left == all[i..]
      invariant Framing(all, sent, open, left, yielded, frame, framed, frameBytes, b)
    {
      var m := LabelOf(messages[i], b.names);
      assert m == left[0] && left[1..] == all[i + 1..];
      if |frame| > 0 && frameBytes + Cost(m, framed.Keys, b) > b.maxBytes {
        TurnCut(all, sent, open, left, yielded, frame, framed, frameBytes, b);
        yielded := yielded + [Frame(frame, framed)];
        frame, framed, frameBytes := [], map[], 0;
        sent, open := sent + [open], [];
      }
      TurnKeep(all, sent, open, left, yielded, frame, framed, frameBytes, b);
      frameBytes := frameBytes + Cost(m, framed.Keys, b);
      framed := With(framed, m, b);
      frame := frame + [m.message];
      open, left := open + [m], left[1..];
    }
    TurnEnd(all, sent, open, yielded, frame, framed, frameBytes, b);
    if |frame| > 0 {
      yielded := yielded + [Frame(frame, framed)];
    }
    FramesAreAFraming(messages, b);
  }

  function Sent(frames: seq<Frame>): seq<Value> {
    if frames == [] then [] else frames[0].messages + Sent(frames[1..])
  }

  lemma {:induction false} SentIsJoined(fs: seq<seq<Labelled>>, b: Budget)
    ensures Sent(FramesOf(fs, b)) == FrameOf(Joined(fs), b).messages
    decreases |fs|
  {
    if fs != [] {
      SentIsJoined(fs[1..], b);
      assert FramesOf(fs, b)[1..] == FramesOf(fs[1..], b);
      assert FrameOf(Joined(fs), b).messages == FrameOf(fs[0], b).messages + FrameOf(Joined(fs[1..]), b).messages;
    }
  }

  /** All frames together carry the stripped messages, each once and in the dump's order. */
  lemma EverythingIsSent(messages: seq<Value>, b: Budget)
    ensures Sent(FramesOf(Frames(LabelAll(messages, b.names), b), b))
         == seq(|messages|, i requires 0 <= i < |messages| => Strip(messages[i]))
  {
    var all := LabelAll(messages, b.names);
    FramesConserve(all, b);
    SentIsJoined(Frames(all, b), b);
  }
}
