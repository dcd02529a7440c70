/** The module-level functions of Core/PublicDroneControl.py and the text the
    facade exchanges with the engine: prefix extraction, first-match routing of
    replies into per-command queues, the hit-result parser, the drone-state and
    spawn-reply decoders, the acknowledgement check and the outbound commands. */
module Messages {
  import opened Wrappers
  import opened Python
  import opened Records

  // ---------------------------------------------------------------------------
  // Prefix extraction

  /** `message` cut after the first occurrence of `prefix`: `rest` is what follows
      it, and `prefix` occurs nowhere earlier. */
  predicate SplitsAtFirst(prefix: string, message: string, rest: string) {
    |prefix| + |rest| <= |message|
    && OccursAt(prefix, message, |message| - |rest| - |prefix|)
    && message[|message| - |rest|..] == rest
    && forall j :: 0 <= j < |message| - |rest| - |prefix| ==> !OccursAt(prefix, message, j)
  }

  /** `extractMessageFromPrefix(prefix, message)`, that is `message.split(prefix, 1)[1]`
      or None; Python rejects an empty separator with a ValueError. */
  function ExtractMessageFromPrefix(prefix: string, message: string): (r: Result<Option<string>, Exception>)
    ensures r == Err(ValueError) <==> prefix == []
    ensures r == Ok(None) <==> prefix != [] && !Contains(prefix, message)
    ensures r.Ok? && r.value.Some? ==> SplitsAtFirst(prefix, message, r.value.value)
  {
    if prefix == [] then Err(ValueError)
    else
      match Find(prefix, message)
      case None => Ok(None)
      case Some(i) => Ok(Some(message[i + |prefix|..]))
  }

  /** The cut is unique: at most one suffix splits a message at the first occurrence. */
  lemma SplitsAtFirstUnique(prefix: string, message: string, a: string, b: string)
    requires SplitsAtFirst(prefix, message, a) && SplitsAtFirst(prefix, message, b)
    ensures a == b
  {
  }

  /** A message that starts with the prefix yields exactly what follows it. */
  lemma ExtractAfterPrefix(prefix: string, rest: string)
    requires prefix != []
    ensures ExtractMessageFromPrefix(prefix, prefix + rest) == Ok(Some(rest))
  {
    var m := prefix + rest;
    assert m[..|prefix|] == prefix;
    assert Find(prefix, m) == Some(0);
    assert m[|prefix|..] == rest;
  }

  // ---------------------------------------------------------------------------
  // Routing replies into the per-command queues

  /** The eight reply kinds, one queue each. */
  datatype Channel =
    | GetDroneState
    | GetDistanceToCameraDirection
    | GetCameraTarget
    | SpawnXActors
    | GetTargetOfPoint
    | TurnTowards
    | Goto
    | TurnCameraXDeg

  /** The queue's key in `message_queues`. */
  function Name(c: Channel): string {
    match c
    case GetDroneState => "getDroneState"
    case GetDistanceToCameraDirection => "getDistanceToCameraDirection"
    case GetCameraTarget => "getCameraTarget"
    case SpawnXActors => "SpawnXActors"
    case GetTargetOfPoint => "GetTargetOfPoint"
    case TurnTowards => "turnTowards"
    case Goto => "goto"
    case TurnCameraXDeg => "turnCameraXDeg"
  }

  /** The prefix the engine puts before a reply of this kind. */
  function Tag(c: Channel): string {
    Name(c) + ":"
  }

  /** The order in which the listener tests the tags. */
  const RoutingOrder: seq<Channel> :=
    [GetDroneState, GetDistanceToCameraDirection, GetCameraTarget, SpawnXActors,
     GetTargetOfPoint, TurnTowards, Goto, TurnCameraXDeg]

  function Position(c: Channel): (k: nat)
    ensures k < |RoutingOrder| && RoutingOrder[k] == c
  {
    match c
    case GetDroneState => 0
    case GetDistanceToCameraDirection => 1
    case GetCameraTarget => 2
    case SpawnXActors => 3
    case GetTargetOfPoint => 4
    case TurnTowards => 5
    case Goto => 6
    case TurnCameraXDeg => 7
  }

  /** The `if … elif …` chain of `_listen`: the first kind, in routing order,
      whose tag occurs anywhere in the datagram; None when no tag occurs. */
  function Classify(message: string): (r: Option<Channel>)
    ensures r.Some? ==> Contains(Tag(r.value), message)
    ensures r.Some? ==> forall d: Channel :: Position(d) < Position(r.value) ==> !Contains(Tag(d), message)
    ensures r.None? <==> forall c: Channel :: !Contains(Tag(c), message)
  {
    if Contains(Tag(GetDroneState), message) then Some(GetDroneState)
    else if Contains(Tag(GetDistanceToCameraDirection), message) then Some(GetDistanceToCameraDirection)
    else if Contains(Tag(GetCameraTarget), message) then Some(GetCameraTarget)
    else if Contains(Tag(SpawnXActors), message) then Some(SpawnXActors)
    else if Contains(Tag(GetTargetOfPoint), message) then Some(GetTargetOfPoint)
    else if Contains(Tag(TurnTowards), message) then Some(TurnTowards)
    else if Contains(Tag(Goto), message) then Some(Goto)
    else if Contains(Tag(TurnCameraXDeg), message) then Some(TurnCameraXDeg)
    else None
  }

  /** What the listener puts into the queue of kind `c`. */
  function Payload(c: Channel, message: string): string
    requires Contains(Tag(c), message)
  {
    ExtractMessageFromPrefix(Tag(c), message).value.value
  }

  type Queues = map<Channel, seq<string>>

  /** Every kind has its queue. */
  predicate Complete(q: Queues) {
    forall c: Channel :: c in q
  }

  /** The eight queues of a new facade. */
  function EmptyQueues(): Queues {
    map[GetDroneState := [], GetDistanceToCameraDirection := [], GetCameraTarget := [],
        SpawnXActors := [], GetTargetOfPoint := [], TurnTowards := [], Goto := [], TurnCameraXDeg := []]
  }

  /** A new facade has a queue for every kind, and all of them are empty. */
  lemma EmptyQueuesComplete()
    ensures Complete(EmptyQueues()) && forall c: Channel :: EmptyQueues()[c] == []
  {
    forall c: Channel
      ensures c in EmptyQueues() && EmptyQueues()[c] == []
    {
      match c
      case GetDroneState =>
      case GetDistanceToCameraDirection =>
      case GetCameraTarget =>
      case SpawnXActors =>
      case GetTargetOfPoint =>
      case TurnTowards =>
      case Goto =>
      case TurnCameraXDeg =>
    }
  }

  /** One pass of the listener loop: the datagram's payload goes to the end of
      the queue it is classified into; a datagram with no tag is dropped. */
  function Routed(q: Queues, message: string): (r: Queues)
    requires Complete(q)
    ensures Complete(r)
  {
    match Classify(message)
    case None => q
    case Some(c) => q[c := q[c] + [Payload(c, message)]]
  }

  /** What routing `message` appends to the queue of kind `c`. */
  function Delivered(message: string, c: Channel): seq<string> {
    if Classify(message) == Some(c) then [Payload(c, message)] else []
  }

  /** Routing touches exactly one queue, by appending one entry, or none at all. */
  lemma RoutedIntoOneQueue(q: Queues, message: string, c: Channel)
    requires Complete(q)
    ensures Routed(q, message)[c] == q[c] + Delivered(message, c)
  {
  }

  /** A datagram holding no tag at all changes no queue. */
  lemma UntaggedDropped(q: Queues, message: string)
    requires Complete(q)
    requires forall c: Channel :: !Contains(Tag(c), message)
    ensures Routed(q, message) == q
  {
  }

  // The tags end in ':' and hold no other ':', and no tag is a proper suffix of
  // another, so a tag at the head of a datagram is the only tag in it when the
  // rest holds none.

  lemma TagShape(c: Channel)
    ensures |Tag(c)| >= 5 && Tag(c)[|Tag(c)| - 1] == ':'
    ensures forall k :: 0 <= k < |Tag(c)| - 1 ==> Tag(c)[k] != ':'
  {
    var n := Name(c);
    NameShape(c);
    forall k | 0 <= k < |Tag(c)| - 1
      ensures Tag(c)[k] != ':'
    {
      assert Tag(c)[k] == n[k];
      assert n[k] in n;
    }
  }

  /** The names hold no ':' and have at least four characters. */
  lemma NameShape(c: Channel)
    ensures |Name(c)| >= 4 && ':' !in Name(c)
  {
  }

  lemma TagsNotSuffixes(c: Channel, d: Channel)
    requires |Tag(d)| <= |Tag(c)| && Tag(c)[|Tag(c)| - |Tag(d)|..] == Tag(d)
    ensures c == d
  {
    var t, u := Tag(c), Tag(d);
    assert u[|u| - 2] == t[|t| - 2];
    assert u[|u| - 3] == t[|t| - 3];
    EndingOfTag(c);
    EndingOfTag(d);
    EndingInjective(c, d);
  }

  /** The last two letters of a name; no two names share them. */
  function Ending(c: Channel): (char, char) {
    match c
    case GetDroneState => ('t', 'e')
    case GetDistanceToCameraDirection => ('o', 'n')
    case GetCameraTarget => ('e', 't')
    case SpawnXActors => ('r', 's')
    case GetTargetOfPoint => ('n', 't')
    case TurnTowards => ('d', 's')
    case Goto => ('t', 'o')
    case TurnCameraXDeg => ('e', 'g')
  }

  lemma EndingOfTag(c: Channel)
    ensures |Tag(c)| >= 3 && Tag(c)[|Tag(c)| - 3] == Ending(c).0 && Tag(c)[|Tag(c)| - 2] == Ending(c).1
  {
    match c
    case GetDroneState =>
    case GetDistanceToCameraDirection =>
    case GetCameraTarget =>
    case SpawnXActors =>
    case GetTargetOfPoint =>
    case TurnTowards =>
    case Goto =>
    case TurnCameraXDeg =>
  }

  lemma EndingInjective(c: Channel, d: Channel)
    requires Ending(c) == Ending(d)
    ensures c == d
  {
  }

  /** No tag occurs anywhere in `s`. */
  predicate Untagged(s: string) {
    forall c: Channel :: !Contains(Tag(c), s)
  }

  /** Ends in ':' and holds no other ':'. */
  predicate ColonTerminated(t: string) {
    t != [] && t[|t| - 1] == ':' && forall k :: 0 <= k < |t| - 1 ==> t[k] != ':'
  }

  /** A colon-terminated `u` found in `t + payload`, when `payload` holds no `u`,
      is a suffix of `t`. */
  lemma OccursOnlyInHead(t: string, u: string, payload: string, i: int)
    requires ColonTerminated(t) && ColonTerminated(u)
    requires !Contains(u, payload)
    requires OccursAt(u, t + payload, i)
    ensures i + |u| == |t| && t[i..] == u
  {
    var m := t + payload;
    if i >= |t| {
      assert m[i..i + |u|] == payload[i - |t|..i - |t| + |u|];
      assert OccursAt(u, payload, i - |t|);
      assert false;
    } else if i + |u| <= |t| {
      assert t[i + |u| - 1] == u[|u| - 1];
      assert t[i..] == u;
    } else {
      CharOfOccurrence(u, m, i, |t| - 1);
      assert false;
    }
  }

  lemma CharOfOccurrence(u: string, m: string, i: int, p: int)
    requires OccursAt(u, m, i) && i <= p < i + |u|
    ensures u[p - i] == m[p]
  {
    assert m[i..i + |u|][p - i] == m[p];
  }

  lemma TagOccursOnlyAtHead(c: Channel, d: Channel, payload: string, i: int)
    requires Untagged(payload)
    requires OccursAt(Tag(d), Tag(c) + payload, i)
    ensures d == c
  {
    TagShape(c);
    TagShape(d);
    assert !Contains(Tag(d), payload);
    OccursOnlyInHead(Tag(c), Tag(d), payload, i);
    TagsNotSuffixes(c, d);
  }

  /** A reply `tag + payload` whose payload holds no tag lands in that tag's
      queue, and the queued text is exactly the payload. */
  lemma TaggedReplyRouting(q: Queues, c: Channel, payload: string)
    requires Complete(q) && Untagged(payload)
    ensures Classify(Tag(c) + payload) == Some(c)
    ensures Routed(q, Tag(c) + payload) == q[c := q[c] + [payload]]
  {
    var m := Tag(c) + payload;
    TagShape(c);
    ExtractAfterPrefix(Tag(c), payload);
    OnlyTagAtHead(c, payload);
    ClassifyOnlyTag(m, c);
    RoutedByKind(q, m, c, payload);
  }

  /** In `tag + payload`, with no tag in the payload, no other tag occurs. */
  lemma OnlyTagAtHead(c: Channel, payload: string)
    requires Untagged(payload)
    ensures forall d: Channel :: d != c ==> !Contains(Tag(d), Tag(c) + payload)
  {
    var m := Tag(c) + payload;
    forall d: Channel | d != c
      ensures !Contains(Tag(d), m)
    {
      if Contains(Tag(d), m) {
        TagOccursOnlyAtHead(c, d, payload, Find(Tag(d), m).value);
      }
    }
  }

  /** A datagram holding exactly one tag is of that tag's kind. */
  lemma ClassifyOnlyTag(m: string, c: Channel)
    requires Contains(Tag(c), m)
    requires forall d: Channel :: d != c ==> !Contains(Tag(d), m)
    ensures Classify(m) == Some(c)
  {
  }

  /** Routing a datagram of kind `c` appends its payload to queue `c` alone. */
  lemma RoutedByKind(q: Queues, m: string, c: Channel, payload: string)
    requires Complete(q) && Classify(m) == Some(c)
    requires ExtractMessageFromPrefix(Tag(c), m) == Ok(Some(payload))
    ensures Routed(q, m) == q[c := q[c] + [payload]]
  {
    assert Payload(c, m) == payload;
  }

  /** Routing a whole stream of datagrams, one after the other. */
  function RouteAll(q: Queues, ms: seq<string>): (r: Queues)
    requires Complete(q)
    ensures Complete(r)
    decreases |ms|
  {
    if ms == [] then q else RouteAll(Routed(q, ms[0]), ms[1..])
  }

  /** The payloads of the datagrams of kind `c`, in arrival order. */
  function Deliveries(ms: seq<string>, c: Channel): seq<string>
    decreases |ms|
  {
    if ms == [] then [] else Delivered(ms[0], c) + Deliveries(ms[1..], c)
  }

  lemma RouteAllStep(q: Queues, ms: seq<string>, c: Channel)
    requires Complete(q) && ms != []
    requires RouteAll(Routed(q, ms[0]), ms[1..])[c] == Routed(q, ms[0])[c] + Deliveries(ms[1..], c)
    ensures RouteAll(q, ms)[c] == q[c] + Deliveries(ms, c)
  {
    var q1 := Routed(q, ms[0]);
    RoutedIntoOneQueue(q, ms[0], c);
    SeqAssociative(q[c], Delivered(ms[0], c), Deliveries(ms[1..], c));
    assert RouteAll(q, ms) == RouteAll(q1, ms[1..]);
    assert Deliveries(ms, c) == Delivered(ms[0], c) + Deliveries(ms[1..], c);
  }

  lemma SeqAssociative<T>(a: seq<T>, b: seq<T>, c: seq<T>)
    ensures (a + b) + c == a + (b + c)
  {
  }

  /** Each queue is FIFO: after a stream of datagrams it holds what it held
      before followed by its own payloads in arrival order. */
  lemma {:induction false} RouteAllAppends(q: Queues, ms: seq<string>, c: Channel)
    requires Complete(q)
    ensures RouteAll(q, ms)[c] == q[c] + Deliveries(ms, c)
    decreases |ms|
  {
    if ms != [] {
      RouteAllAppends(Routed(q, ms[0]), ms[1..], c);
      RouteAllStep(q, ms, c);
    }
  }

  // ---------------------------------------------------------------------------
  // The hit-result parser

  /** `parts[i].split('=')[j]`, an IndexError where either index is out of range. */
  function Field(parts: seq<string>, i: nat, j: nat): Result<string, Exception> {
    if i >= |parts| then Err(IndexError)
    else
      var pieces := Split(parts[i], '=');
      if j >= |pieces| then Err(IndexError) else Ok(pieces[j])
  }

  /** `float(text)`, a ValueError where Python rejects the text. */
  function Float(text: string): (r: Result<real, Exception>)
    ensures r.Err? ==> r.error == ValueError
  {
    match ParseFloat(text)
    case None => Err(ValueError)
    case Some(v) => Ok(v)
  }

  /** `parseHitResult(msg)`: the sentinel `None`, or a Target read from
      `DisplayName=d ClassName=c Location=X=x Y=y Z=z`; the IndexError or
      ValueError that the first bad field raises. */
  function ParseHitResult(msg: string): (r: Result<Option<Target>, Exception>)
    ensures r == Ok(None) <==> msg == "None"
    ensures r.Ok? && r.value.Some? ==> |Words(msg)| >= 5
    ensures r.Err? ==> r.error == IndexError || r.error == ValueError
  {
    if msg == "None" then Ok(None)
    else
      var parts := Words(msg);
      var displayName :- Field(parts, 0, 1);
      var className :- Field(parts, 1, 1);
      var xText :- Field(parts, 2, 2);
      var x :- Float(xText);
      var yText :- Field(parts, 3, 1);
      var y :- Float(yText);
      var zText :- Field(parts, 4, 1);
      var z :- Float(zText);
      Ok(Some(Target(displayName, className, Coordinate(x, y, z))))
  }

  /** No whitespace in `s`. */
  predicate SpaceFree(s: string) {
    forall i :: 0 <= i < |s| ==> !IsSpace(s[i])
  }

  /** A name fit for the hit reply: it holds no whitespace and no '='. */
  predicate Plain(s: string) {
    SpaceFree(s) && '=' !in s
  }

  lemma SpaceFreeConcat(a: string, b: string)
    requires SpaceFree(a) && SpaceFree(b)
    ensures SpaceFree(a + b)
  {
    forall i | 0 <= i < |a + b|
      ensures !IsSpace((a + b)[i])
    {
      if i >= |a| {
        assert (a + b)[i] == b[i - |a|];
      }
    }
  }

  lemma RenderIsPlain(d: Decimal)
    ensures Render(d) != [] && Plain(Render(d))
  {
    var t := Render(d);
    RenderChars(d);
    forall i | 0 <= i < |t|
      ensures !IsSpace(t[i]) && t[i] != '='
    {
      assert IsDigit(t[i]) || t[i] == '-' || t[i] == '.';
    }
  }

  /** `key=value` */
  function Pair(key: string, value: string): string {
    key + ['='] + value
  }

  /** A `key=value` word, and how `split('=')` cuts it. */
  lemma {:induction false} KeyValue(key: string, value: string)
    requires key != [] && Plain(key) && Plain(value)
    ensures IsWord(Pair(key, value))
    ensures Split(Pair(key, value), '=') == [key, value]
  {
    SpaceFreeConcat(key, "=");
    SpaceFreeConcat(key + "=", value);
    SplitAtFirstSeparator(key, value, '=');
    SplitWithoutSeparator(value, '=');
  }

  /** A `key=inner=value` word, and how `split('=')` cuts it. */
  lemma {:induction false} KeyKeyValue(key: string, inner: string, value: string)
    requires key != [] && Plain(key) && inner != [] && Plain(inner) && Plain(value)
    ensures IsWord(Pair(key, Pair(inner, value)))
    ensures Split(Pair(key, Pair(inner, value)), '=') == [key, inner, value]
  {
    KeyValue(inner, value);
    SpaceFreeConcat(key, "=");
    SpaceFreeConcat(key + "=", Pair(inner, value));
    SplitAtFirstSeparator(key, Pair(inner, value), '=');
  }

  const DisplayNameKey: string := "DisplayName"
  const ClassNameKey: string := "ClassName"
  const LocationKey: string := "Location"
  const XKey: string := "X"
  const YKey: string := "Y"
  const ZKey: string := "Z"

  lemma NameKeysArePlain()
    ensures DisplayNameKey != [] && Plain(DisplayNameKey)
    ensures ClassNameKey != [] && Plain(ClassNameKey)
  {
  }

  lemma LocationKeysArePlain()
    ensures LocationKey != [] && Plain(LocationKey)
    ensures XKey != [] && Plain(XKey) && YKey != [] && Plain(YKey) && ZKey != [] && Plain(ZKey)
  {
  }

  /** The five words of the reply the engine sends for a hit, its numbers
      written by `str()`. */
  function HitWords(displayName: string, className: string, x: Decimal, y: Decimal, z: Decimal): seq<string> {
    [Pair(DisplayNameKey, displayName), Pair(ClassNameKey, className),
     Pair(LocationKey, Pair(XKey, Render(x))), Pair(YKey, Render(y)), Pair(ZKey, Render(z))]
  }

  /** `DisplayName=d ClassName=c Location=X=x Y=y Z=z` */
  function HitText(displayName: string, className: string, x: Decimal, y: Decimal, z: Decimal): string {
    Join(HitWords(displayName, className, x, y, z), ' ')
  }

  lemma HitWordsAreWords(displayName: string, className: string, x: Decimal, y: Decimal, z: Decimal)
    requires Plain(displayName) && Plain(className)
    ensures forall i :: 0 <= i < 5 ==> IsWord(HitWords(displayName, className, x, y, z)[i])
  {
    var ws := HitWords(displayName, className, x, y, z);
    assert IsWord(ws[0]) && IsWord(ws[1]) by {
      NameKeysArePlain();
      KeyValue(DisplayNameKey, displayName);
      KeyValue(ClassNameKey, className);
    }
    assert IsWord(ws[2]) && IsWord(ws[3]) && IsWord(ws[4]) by {
      LocationKeysArePlain();
      LocationWords(x, y, z);
    }
  }

  /** The three location words are words, and how `split('=')` cuts them. */
  lemma LocationWords(x: Decimal, y: Decimal, z: Decimal)
    ensures IsWord(Pair(LocationKey, Pair(XKey, Render(x)))) && IsWord(Pair(YKey, Render(y))) && IsWord(Pair(ZKey, Render(z)))
    ensures Split(Pair(LocationKey, Pair(XKey, Render(x))), '=') == [LocationKey, XKey, Render(x)]
    ensures Split(Pair(YKey, Render(y)), '=') == [YKey, Render(y)]
    ensures Split(Pair(ZKey, Render(z)), '=') == [ZKey, Render(z)]
  {
    LocationKeysArePlain();
    RenderIsPlain(x);
    RenderIsPlain(y);
    RenderIsPlain(z);
    KeyKeyValue(LocationKey, XKey, Render(x));
    KeyValue(YKey, Render(y));
    KeyValue(ZKey, Render(z));
  }

  lemma HitTextWords(displayName: string, className: string, x: Decimal, y: Decimal, z: Decimal)
    requires Plain(displayName) && Plain(className)
    ensures Words(HitText(displayName, className, x, y, z)) == HitWords(displayName, className, x, y, z)
  {
    HitWordsAreWords(displayName, className, x, y, z);
    WordsJoin(HitWords(displayName, className, x, y, z));
  }

  /** How `split('=')` cuts each of the five words. */
  lemma HitFields(displayName: string, className: string, x: Decimal, y: Decimal, z: Decimal)
    requires Plain(displayName) && Plain(className)
    ensures var ws := HitWords(displayName, className, x, y, z);
      && Field(ws, 0, 1) == Ok(displayName)
      && Field(ws, 1, 1) == Ok(className)
      && Field(ws, 2, 2) == Ok(Render(x))
      && Field(ws, 3, 1) == Ok(Render(y))
      && Field(ws, 4, 1) == Ok(Render(z))
  {
    var ws := HitWords(displayName, className, x, y, z);
    assert Split(ws[0], '=') == [DisplayNameKey, displayName] && Split(ws[1], '=') == [ClassNameKey, className] by {
      NameKeysArePlain();
      KeyValue(DisplayNameKey, displayName);
      KeyValue(ClassNameKey, className);
    }
    assert Split(ws[2], '=') == [LocationKey, XKey, Render(x)] by { LocationWords(x, y, z); }
    assert Split(ws[3], '=') == [YKey, Render(y)] by { LocationWords(x, y, z); }
    assert Split(ws[4], '=') == [ZKey, Render(z)] by { LocationWords(x, y, z); }
  }

  /** The parser reads back every hit reply whose names hold no whitespace and no '='. */
  lemma HitResultRoundTrip(displayName: string, className: string, x: Decimal, y: Decimal, z: Decimal)
    requires Plain(displayName) && Plain(className)
    ensures ParseHitResult(HitText(displayName, className, x, y, z))
         == Ok(Some(Target(displayName, className, Coordinate(Value(x), Value(y), Value(z)))))
  {
    var msg := HitText(displayName, className, x, y, z);
    HitTextWords(displayName, className, x, y, z);
    HitFields(displayName, className, x, y, z);
    RenderRoundTrip(x);
    RenderRoundTrip(y);
    RenderRoundTrip(z);
    assert msg != "None" by {
      assert msg[0] == 'D';
    }
  }

  // ---------------------------------------------------------------------------
  // Acknowledged commands and the distance reply

  /** The check after turnTowards, goto and turnCameraXDeg: the reply `Done`
      returns normally, anything else raises with the reply appended to `context`. */
  function Acknowledge(reply: string, context: string): (r: Result<(), Exception>)
    ensures r.Ok? <==> reply == "Done"
    ensures r.Err? ==> r.error == Raised(context + reply)
  {
    if reply == "Done" then Ok(()) else Err(Raised(context + reply))
  }

  const TurnTowardsError: string := "Error in turning towards location: "
  const GotoError: string := "Error in moving to location: "
  const TurnCameraError: string := "Error in turning camera: "

  /** `float(message) / 100`: the engine's centimetres as metres. */
  function DistanceFromReply(message: string): Result<real, Exception> {
    var centimetres :- Float(message);
    Ok(centimetres / 100.0)
  }

  /** A distance written by `str()` comes back as the same number of centimetres, in metres. */
  lemma DistanceRoundTrip(d: Decimal)
    ensures DistanceFromReply(Render(d)) == Ok(Value(d) / 100.0)
  {
    RenderRoundTrip(d);
    DistanceOfParsed(Render(d), Value(d));
  }

  lemma DistanceOfParsed(message: string, v: real)
    requires ParseFloat(message) == Some(v)
    ensures DistanceFromReply(message) == Ok(v / 100.0)
  {
  }

  // ---------------------------------------------------------------------------
  // The drone-state reply

  /** A JSON number as a real; a bool is an int in Python. */
  function Number(j: Json): (r: Result<real, Exception>)
    ensures r.Ok? <==> j.JInt? || j.JFloat? || j.JBool?
  {
    match j
    case JInt(i) => Ok(i as real)
    case JFloat(f) => Ok(f)
    case JBool(b) => Ok(if b then 1.0 else 0.0)
    case _ => Err(TypeError)
  }

  /** A JSON int (or bool) as an int. */
  function Integer(j: Json): (r: Result<int, Exception>)
    ensures r.Ok? <==> j.JInt? || j.JBool?
  {
    match j
    case JInt(i) => Ok(i)
    case JBool(b) => Ok(if b then 1 else 0)
    case _ => Err(TypeError)
  }

  const XKeyName: string := "positionXVal"
  const YKeyName: string := "positionYVal"
  const ZKeyName: string := "positionZVal"
  const CollisionKeyName: string := "collisionCount"

  /** `DroneState(Coordinate(j["positionXVal"], j["positionYVal"], j["positionZVal"]), j["collisionCount"])` */
  function DroneStateFromJson(j: Json): Result<DroneState, Exception> {
    var x :- Index(j, XKeyName);
    var y :- Index(j, YKeyName);
    var z :- Index(j, ZKeyName);
    var n :- Index(j, CollisionKeyName);
    var cx :- Number(x);
    var cy :- Number(y);
    var cz :- Number(z);
    var count :- Integer(n);
    Ok(DroneState(Coordinate(cx, cy, cz), count))
  }

  /** The reply handling of `getDroneState`: `json.loads`, then the record. */
  function DecodeDroneState(loads: string -> Option<Json>, message: string): Result<DroneState, Exception> {
    match loads(message)
    case None => Err(JsonDecodeError)
    case Some(j) => DroneStateFromJson(j)
  }

  /** `dict.get(key)` */
  function Get(fields: map<string, Json>, key: string): Option<Json> {
    if key in fields then Some(fields[key]) else None
  }

  /** `isinstance(v, int)`, where bool is a subclass of int and None is not an int. */
  predicate IsInt(v: Option<Json>) {
    v.Some? && (v.value.JInt? || v.value.JBool?)
  }

  /** `isinstance(v, float)` */
  predicate IsFloat(v: Option<Json>) {
    v.Some? && v.value.JFloat?
  }

  /** The four checks of `_validate_target_format` on a dict: an int collision
      count and three float coordinates, each key possibly missing. */
  predicate WellFormedState(fields: map<string, Json>) {
    IsInt(Get(fields, CollisionKeyName)) && IsFloat(Get(fields, XKeyName))
    && IsFloat(Get(fields, YKeyName)) && IsFloat(Get(fields, ZKeyName))
  }

  /** The checks of `_validate_target_format` on a decoded value: `.get` on
      anything but a dict raises AttributeError, which the function does not catch. */
  function TargetFormatOk(j: Json): (r: Result<bool, Exception>)
    ensures r.Err? <==> !j.JObject?
    ensures r.Err? ==> r.error == AttributeError
    ensures r == Ok(true) <==> j.JObject? && WellFormedState(j.fields)
  {
    match j
    case JObject(fields) => Ok(WellFormedState(fields))
    case _ => Err(AttributeError)
  }

  /** `_validate_target_format(input)`: text that is not JSON is simply invalid. */
  function ValidateTargetFormat(loads: string -> Option<Json>, input: string): (r: Result<bool, Exception>)
    ensures loads(input).None? ==> r == Ok(false)
    ensures loads(input).Some? ==> r == TargetFormatOk(loads(input).value)
  {
    match loads(input)
    case None => Ok(false)
    case Some(j) => TargetFormatOk(j)
  }

  /** Text that passes the validation decodes into the drone state it describes. */
  lemma ValidatedStateDecodes(loads: string -> Option<Json>, message: string)
    requires ValidateTargetFormat(loads, message) == Ok(true)
    ensures loads(message).Some? && loads(message).value.JObject?
    ensures var f := loads(message).value.fields;
      DecodeDroneState(loads, message)
      == Ok(DroneState(Coordinate(f[XKeyName].f, f[YKeyName].f, f[ZKeyName].f),
                       Integer(f[CollisionKeyName]).value))
  {
    var j := loads(message).value;
    assert TargetFormatOk(j) == Ok(true);
  }

  /** The JSON object the engine sends for a drone state. */
  function DroneStateJson(s: DroneState): Json {
    JObject(map[XKeyName := JFloat(s.position.x), YKeyName := JFloat(s.position.y),
                ZKeyName := JFloat(s.position.z), CollisionKeyName := JInt(s.collisionCount)])
  }

  lemma KeyNamesDistinct()
    ensures XKeyName != YKeyName && XKeyName != ZKeyName && XKeyName != CollisionKeyName
    ensures YKeyName != ZKeyName && YKeyName != CollisionKeyName && ZKeyName != CollisionKeyName
  {
    assert XKeyName[8] != YKeyName[8] && XKeyName[8] != ZKeyName[8] && YKeyName[8] != ZKeyName[8];
    assert |XKeyName| != |CollisionKeyName|;
  }

  /** A drone state's JSON passes the validation and decodes back to the same state. */
  lemma DroneStateJsonRoundTrip(s: DroneState)
    ensures TargetFormatOk(DroneStateJson(s)) == Ok(true)
    ensures DroneStateFromJson(DroneStateJson(s)) == Ok(s)
  {
    KeyNamesDistinct();
  }

  // ---------------------------------------------------------------------------
  // Spawning actors and the spawn reply

  /** The most actors one request may spawn. */
  const MaxActors: int := 150

  /** The clamp of `spawnXActors`: counts above 150 become 150. */
  function SpawnCount(n: int): (r: int)
    ensures r <= MaxActors
    ensures n <= MaxActors ==> r == n
    ensures n > MaxActors ==> r == MaxActors
  {
    if n > MaxActors then MaxActors else n
  }

  const XSuffix: string := "-XLoc"
  const YSuffix: string := "-YLoc"
  const ZSuffix: string := "-ZLoc"

  /** `f"{i}-XLoc"` and its siblings. */
  function ActorKey(i: nat, suffix: string): string {
    NatToString(i) + suffix
  }

  /** Entry `i` of the spawn reply: its three lookups, in order. */
  function ActorEntry(j: Json, i: nat): Result<Coordinate, Exception> {
    var x :- Index(j, ActorKey(i, XSuffix));
    var y :- Index(j, ActorKey(i, YSuffix));
    var z :- Index(j, ActorKey(i, ZSuffix));
    var cx :- Number(x);
    var cy :- Number(y);
    var cz :- Number(z);
    Ok(Coordinate(cx, cy, cz))
  }

  /** Entries `0 .. n-1`, in index order; the first failing entry's error otherwise. */
  function Actors(j: Json, n: nat): (r: Result<seq<Coordinate>, Exception>)
    ensures r.Ok? ==> |r.value| == n && forall i :: 0 <= i < n ==> ActorEntry(j, i) == Ok(r.value[i])
    ensures r.Err? <==> exists i :: 0 <= i < n && ActorEntry(j, i).Err?
  {
    if n == 0 then Ok([])
    else
      var earlier :- Actors(j, n - 1);
      var last :- ActorEntry(j, n - 1);
      Ok(earlier + [last])
  }

  /** A failed prefix stays failed, with the same error, however many entries follow. */
  lemma {:induction false} ActorsFailureSticks(j: Json, k: nat, n: nat)
    requires k <= n && Actors(j, k).Err?
    ensures Actors(j, n) == Actors(j, k)
    decreases n
  {
    if n > k {
      ActorsFailureSticks(j, k, n - 1);
    }
  }

  /** The decoding in `spawnXActors`: `len(reply) // 3` entries. */
  function DecodeSpawnReply(j: Json): Result<seq<Coordinate>, Exception> {
    var size :- Len(j);
    Actors(j, size / 3)
  }

  /** The reply the engine sends for a list of spawned actors. */
  function EncodeActors(cs: seq<Coordinate>): map<string, Json>
    decreases |cs|
  {
    if cs == [] then map[]
    else
      var n := |cs| - 1;
      EncodeActors(cs[..n])[ActorKey(n, XSuffix) := JFloat(cs[n].x)]
                           [ActorKey(n, YSuffix) := JFloat(cs[n].y)]
                           [ActorKey(n, ZSuffix) := JFloat(cs[n].z)]
  }

  predicate IsSuffix(s: string) {
    s == XSuffix || s == YSuffix || s == ZSuffix
  }

  /** Distinct indices or suffixes give distinct keys. */
  lemma ActorKeyInjective(a: nat, s: string, b: nat, t: string)
    requires IsSuffix(s) && IsSuffix(t)
    requires ActorKey(a, s) == ActorKey(b, t)
    ensures a == b && s == t
  {
    var ka, kb := ActorKey(a, s), ActorKey(b, t);
    assert |s| == |t| == 5;
    assert NatToString(a) == ka[..|ka| - 5] == kb[..|kb| - 5] == NatToString(b);
    NatToStringInjective(a, b);
    assert s == ka[|ka| - 5..] == kb[|kb| - 5..] == t;
  }

  lemma {:induction false} EncodeActorsFresh(cs: seq<Coordinate>, m: nat, s: string)
    requires IsSuffix(s) && m >= |cs|
    ensures ActorKey(m, s) !in EncodeActors(cs)
    decreases |cs|
  {
    if cs != [] {
      var n := |cs| - 1;
      EncodeActorsFresh(cs[..n], m, s);
      if ActorKey(m, s) == ActorKey(n, XSuffix) {
        ActorKeyInjective(m, s, n, XSuffix);
      } else if ActorKey(m, s) == ActorKey(n, YSuffix) {
        ActorKeyInjective(m, s, n, YSuffix);
      } else if ActorKey(m, s) == ActorKey(n, ZSuffix) {
        ActorKeyInjective(m, s, n, ZSuffix);
      }
    }
  }

  /** The coordinate component a key suffix names. */
  function Component(c: Coordinate, suffix: string): real {
    if suffix == XSuffix then c.x else if suffix == YSuffix then c.y else c.z
  }

  /** Three updates leave every other key as it was. */
  lemma UpdatesElsewhere<K, V>(m: map<K, V>, k1: K, v1: V, k2: K, v2: V, k3: K, v3: V, k: K)
    requires k != k1 && k != k2 && k != k3
    ensures k in m[k1 := v1][k2 := v2][k3 := v3] <==> k in m
    ensures k in m ==> m[k1 := v1][k2 := v2][k3 := v3][k] == m[k]
  {
  }

  /** Entry `n`'s keys differ from those of any other entry. */
  lemma OtherEntryKey(i: nat, s: string, n: nat, t: string)
    requires IsSuffix(s) && IsSuffix(t) && i != n
    ensures ActorKey(i, s) != ActorKey(n, t)
  {
    if ActorKey(i, s) == ActorKey(n, t) {
      ActorKeyInjective(i, s, n, t);
    }
  }

  /** The map after entry `n` is added maps entry `n`'s keys to its components. */
  lemma LastEntryLookup(cs: seq<Coordinate>, s: string)
    requires cs != [] && IsSuffix(s)
    ensures var n := |cs| - 1;
      ActorKey(n, s) in EncodeActors(cs) && EncodeActors(cs)[ActorKey(n, s)] == JFloat(Component(cs[n], s))
  {
    var n := |cs| - 1;
    SuffixesDistinct();
    OtherSuffixKey(n, s);
  }

  /** The keys of one entry are pairwise distinct. */
  lemma OtherSuffixKey(n: nat, s: string)
    requires IsSuffix(s)
    ensures s != XSuffix ==> ActorKey(n, s) != ActorKey(n, XSuffix)
    ensures s != YSuffix ==> ActorKey(n, s) != ActorKey(n, YSuffix)
    ensures s != ZSuffix ==> ActorKey(n, s) != ActorKey(n, ZSuffix)
  {
    if ActorKey(n, s) == ActorKey(n, XSuffix) { ActorKeyInjective(n, s, n, XSuffix); }
    if ActorKey(n, s) == ActorKey(n, YSuffix) { ActorKeyInjective(n, s, n, YSuffix); }
    if ActorKey(n, s) == ActorKey(n, ZSuffix) { ActorKeyInjective(n, s, n, ZSuffix); }
  }

  lemma {:induction false} EncodeActorsLookup(cs: seq<Coordinate>, i: nat, s: string)
    requires i < |cs| && IsSuffix(s)
    ensures ActorKey(i, s) in EncodeActors(cs) && EncodeActors(cs)[ActorKey(i, s)] == JFloat(Component(cs[i], s))
    decreases |cs|
  {
    var n := |cs| - 1;
    if i < n {
      EncodeActorsLookup(cs[..n], i, s);
      assert cs[..n][i] == cs[i];
      OtherEntryKey(i, s, n, XSuffix);
      OtherEntryKey(i, s, n, YSuffix);
      OtherEntryKey(i, s, n, ZSuffix);
      UpdatesElsewhere(EncodeActors(cs[..n]), ActorKey(n, XSuffix), JFloat(cs[n].x),
        ActorKey(n, YSuffix), JFloat(cs[n].y), ActorKey(n, ZSuffix), JFloat(cs[n].z), ActorKey(i, s));
    } else {
      LastEntryLookup(cs, s);
    }
  }

  lemma SuffixesDistinct()
    ensures XSuffix != YSuffix && XSuffix != ZSuffix && YSuffix != ZSuffix
  {
    assert XSuffix[1] != YSuffix[1] && XSuffix[1] != ZSuffix[1] && YSuffix[1] != ZSuffix[1];
  }

  lemma {:induction false} EncodeActorsSize(cs: seq<Coordinate>)
    ensures |EncodeActors(cs)| == 3 * |cs|
    decreases |cs|
  {
    if cs != [] {
      var n := |cs| - 1;
      EncodeActorsSize(cs[..n]);
      EncodeActorsFresh(cs[..n], n, XSuffix);
      EncodeActorsFresh(cs[..n], n, YSuffix);
      EncodeActorsFresh(cs[..n], n, ZSuffix);
      SuffixesDistinct();
      if ActorKey(n, XSuffix) == ActorKey(n, YSuffix) {
        ActorKeyInjective(n, XSuffix, n, YSuffix);
      }
      if ActorKey(n, XSuffix) == ActorKey(n, ZSuffix) {
        ActorKeyInjective(n, XSuffix, n, ZSuffix);
      }
      if ActorKey(n, YSuffix) == ActorKey(n, ZSuffix) {
        ActorKeyInjective(n, YSuffix, n, ZSuffix);
      }
    }
  }

  lemma {:induction false} ActorsOfEncoding(cs: seq<Coordinate>, n: nat)
    requires n <= |cs|
    ensures Actors(JObject(EncodeActors(cs)), n) == Ok(cs[..n])
    decreases n
  {
    if n > 0 {
      ActorsOfEncoding(cs, n - 1);
      EncodeActorsLookup(cs, n - 1, XSuffix);
      EncodeActorsLookup(cs, n - 1, YSuffix);
      EncodeActorsLookup(cs, n - 1, ZSuffix);
      assert cs[..n - 1] + [cs[n - 1]] == cs[..n];
    }
  }

  /** The spawn reply decodes into exactly the actors it lists, in index order. */
  lemma SpawnReplyRoundTrip(cs: seq<Coordinate>)
    ensures DecodeSpawnReply(JObject(EncodeActors(cs))) == Ok(cs)
  {
    var fields := EncodeActors(cs);
    assert |fields| / 3 == |cs| by { EncodeActorsSize(cs); }
    assert Actors(JObject(fields), |cs|) == Ok(cs) by {
      ActorsOfEncoding(cs, |cs|);
      assert cs[..|cs|] == cs;
    }
  }

  /** The reply handling of `spawnXActors`: `json.loads`, then the entries. */
  function SpawnReply(loads: string -> Option<Json>, message: string): Result<seq<Coordinate>, Exception> {
    match loads(message)
    case None => Err(JsonDecodeError)
    case Some(j) => DecodeSpawnReply(j)
  }

  // ---------------------------------------------------------------------------
  // Verify and destroy

  /** `list.index(x)`: the first position holding `x`; None where `x in list` is false. */
  function FirstIndex(s: seq<Coordinate>, x: Coordinate): (r: Option<nat>)
    ensures r.Some? ==> r.value < |s| && s[r.value] == x && forall j :: 0 <= j < r.value ==> s[j] != x
    ensures r.None? <==> x !in s
    decreases |s|
  {
    if s == [] then None
    else if s[0] == x then Some(0)
    else
      match FirstIndex(s[1..], x)
      case None => None
      case Some(k) => Some(k + 1)
  }

  /** The index `verifyAndDestroyActor*` destroys: none for no target or a
      position that was not spawned, else the first spawned actor at that position. */
  function DestroyIndex(target: Option<Target>, spawnedActors: seq<Coordinate>): (r: Option<nat>)
    ensures r.Some? <==> target.Some? && target.value.position in spawnedActors
    ensures r.Some? ==> target.Some? && r.value < |spawnedActors| && spawnedActors[r.value] == target.value.position
    ensures r.Some? ==> forall j :: 0 <= j < r.value ==> spawnedActors[j] != target.value.position
  {
    match target
    case None => None
    case Some(t) => FirstIndex(spawnedActors, t.position)
  }

  // ---------------------------------------------------------------------------
  // Outbound commands, each the exact text `_send` transmits

  /** The ten primitive controls. */
  datatype Primitive =
    | MoveUp | MoveDown | MoveForward | MoveBackward | MoveRight | MoveLeft
    | RotateRight | RotateLeft | CameraDown | CameraUp

  /** The control each primitive drives. */
  function Axis(p: Primitive): string {
    match p
    case MoveUp | MoveDown => "upAmount"
    case MoveForward | MoveBackward => "pitchForwardAmount"
    case MoveRight | MoveLeft => "rollRightAmount"
    case RotateRight | RotateLeft => "yawRightAmount"
    case CameraDown | CameraUp => "cameraDownAmount"
  }

  /** The primitives that send their multiplier negated. */
  predicate Negated(p: Primitive) {
    p.MoveDown? || p.MoveBackward? || p.MoveLeft? || p.RotateLeft? || p.CameraUp?
  }

  /** The primitive in the opposite direction. */
  function Opposite(p: Primitive): Primitive {
    match p
    case MoveUp => MoveDown
    case MoveDown => MoveUp
    case MoveForward => MoveBackward
    case MoveBackward => MoveForward
    case MoveRight => MoveLeft
    case MoveLeft => MoveRight
    case RotateRight => RotateLeft
    case RotateLeft => RotateRight
    case CameraDown => CameraUp
    case CameraUp => CameraDown
  }

  /** `'{"controls": {"KEY": ' + value + '}}'` */
  function Controls(key: string, value: string): string {
    "{\"controls\": {\"" + key + "\": " + value + "}}"
  }

  /** The value a primitive sends for a multiplier. */
  function PrimitiveValue(p: Primitive, speedMultiplier: Decimal): Decimal {
    if Negated(p) then Negate(speedMultiplier) else speedMultiplier
  }

  function PrimitiveCommand(p: Primitive, speedMultiplier: Decimal): string {
    Controls(Axis(p), Render(PrimitiveValue(p, speedMultiplier)))
  }

  /** Opposite primitives drive the same control, one of them negated, and the
      opposite of the opposite is the primitive itself. */
  lemma OppositeShape(p: Primitive)
    ensures Axis(Opposite(p)) == Axis(p)
    ensures Negated(Opposite(p)) == !Negated(p)
    ensures Opposite(Opposite(p)) == p
  {
  }

  /** Each primitive sends its multiplier, negated for the opposite direction,
      as a number that reads back as such. */
  lemma PrimitiveValueReadsBack(p: Primitive, speedMultiplier: Decimal)
    ensures ParseFloat(Render(PrimitiveValue(p, speedMultiplier)))
         == Some(if Negated(p) then -Value(speedMultiplier) else Value(speedMultiplier))
  {
    var v := PrimitiveValue(p, speedMultiplier);
    var w := if Negated(p) then -Value(speedMultiplier) else Value(speedMultiplier);
    assert Value(v) == w by {
      NegateValue(speedMultiplier);
    }
    RenderRoundTrip(v);
  }

  lemma NegateValue(d: Decimal)
    ensures Value(Negate(d)) == -Value(d)
  {
    var q := Pow10(d.scale) as real;
    assert (-d.units) as real / q == -(d.units as real / q);
  }

  /** The opposite primitive sends, on the same control, what this one sends for
      the negated multiplier. */
  lemma OppositeCommand(p: Primitive, speedMultiplier: Decimal)
    ensures PrimitiveCommand(Opposite(p), speedMultiplier) == PrimitiveCommand(p, Negate(speedMultiplier))
  {
    OppositeShape(p);
    assert Negate(Negate(speedMultiplier)) == speedMultiplier;
  }

  const HoverCommand: string := "{\"controls\": {\"hover\": \"true\"}}"

  function RotateXDegreesCommand(degrees: Decimal, speed: Decimal): string {
    "{\"controls\": {\"rotateXDegrees\": " + Render(degrees) + ", \"rotationSpeed\": " + Render(speed) + "}}"
  }

  function TurnTowardsCommand(x: Decimal, y: Decimal, z: Decimal, speed: Decimal): string {
    "{\"controls\": {\"turnTowards\": {\"turnTowardsXVal\": " + Render(x)
    + ", \"turnTowardsYVal\": " + Render(y) + ", \"turnTowardsZVal\": " + Render(z)
    + ", \"turnTowardsSpeed\": " + Render(speed) + "}}}"
  }

  /** `turnWithMove` as the JSON literal the command carries. */
  function BoolLiteral(b: bool): string {
    if b then "true" else "false"
  }

  function GotoCommand(x: Decimal, y: Decimal, z: Decimal, speed: Decimal, turnWithMove: bool): string {
    "{\"controls\": {\"goto\": {\"gotoXVal\": " + Render(x) + ", \"gotoYVal\": " + Render(y)
    + ", \"gotoZVal\": " + Render(z) + ", \"gotoSpeed\": " + Render(speed)
    + ", \"turnWithMove\": " + BoolLiteral(turnWithMove) + "}}}"
  }

  function TurnCameraCommand(degrees: Decimal, speedMultiplier: Decimal): string {
    "{\"controls\": {\"turnCameraXDeg\": {\"degrees\": " + Render(degrees)
    + ", \"speedMultiplier\": " + Render(speedMultiplier) + "}}}"
  }

  const DroneStateRequest: string := "{\"getDroneState\": \"true\"}"
  const DistanceRequest: string := "{\"getDistanceToCameraDirection\": \"true\"}"
  const CameraTargetRequest: string := "{\"getCameraTarget\": \"true\"}"

  function DroneGradeCommand(grade: Decimal): string {
    "{\"droneGrade\": " + Render(grade) + "}"
  }

  function TargetOfPointRequest(x: Decimal, y: Decimal): string {
    "{\"GetTargetOfPoint\": {\"xVal\": " + Render(x) + ", \"yVal\": " + Render(y) + "}}"
  }

  function DaytimeChangeCommand(addDegrees: Decimal): string {
    "{\"DaytimeChangeRequested\": " + Render(addDegrees) + "}"
  }

  function SpawnCommand(n: int): string {
    "{\"SpawnXActors\": " + IntToString(n) + "}"
  }

  function DestroyCommand(index: nat): string {
    "{\"DestroyActor\": " + NatToString(index) + "}"
  }
}
