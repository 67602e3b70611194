/** The opaque cursor of a browser session: the keys of the actions already done
    and the next action, as a tagged, versioned text bound to one target. */
module Checkpoints {
  import opened Basics
  import Base64

  datatype Json =
    | Null
    | Bool(flag: bool)
    | Num(value: int)
    | Str(text: string)
    | List(items: seq<Json>)
    | Obj(fields: map<string, Json>)

  /** JSON is an inverse pair and the tag a function of the bytes. */
  datatype Codec = Codec(dump: Json -> Bytes, load: Bytes -> Option<Json>, tag: Bytes -> string)

  ghost predicate Inverse(codec: Codec) {
    forall v :: codec.load(codec.dump(v)) == Some(v)
  }

  datatype Action = Action(kind: string, key: string, selector: Option<string>, text: Option<string>)

  datatype CheckpointError = Malformed | BadIntegrity | OtherTarget | BadFields

  // ---------------------------------------------------------------- actions

  function Payload(a: Action): map<string, Json> {
    var base := map["kind" := Str(a.kind), "key" := Str(a.key)];
    var selected := if a.selector.Some? then base["selector" := Str(a.selector.value)] else base;
    if a.text.Some? then selected["text" := Str(a.text.value)] else selected
  }

  function Field(fields: map<string, Json>, name: string): Json {
    if name in fields then fields[name] else Null
  }

  /** An optional field: absent, null, or a string. */
  function Optional(v: Json): Result<Option<string>, CheckpointError> {
    match v
    case Null => Ok(None)
    case Str(s) => Ok(Some(s))
    case _ => Err(BadFields)
  }

  function FromPayload(fields: map<string, Json>): Result<Action, CheckpointError> {
    var kind, key := Field(fields, "kind"), Field(fields, "key");
    if !kind.Str? || !key.Str? then Err(BadFields)
    else
      match Optional(Field(fields, "selector"))
      case Err(e) => Err(e)
      case Ok(selector) =>
        match Optional(Field(fields, "text"))
        case Err(e) => Err(e)
        case Ok(text) => Ok(Action(kind.text, key.text, selector, text))
  }

  lemma {:induction false} PayloadRoundTrip(a: Action)
    ensures FromPayload(Payload(a)) == Ok(a)
  {
    assert "kind" != "key" && "selector" != "text" && "selector"[0] != "kind"[0] && "text"[0] != "key"[0];
    assert |"selector"| == 8 && |"text"| == 4 && |"kind"| == 4 && |"key"| == 3 && "kind"[0] != "text"[0];
    assert Field(Payload(a), "kind") == Str(a.kind) && Field(Payload(a), "key") == Str(a.key);
  }

  // ------------------------------------------------------------- checkpoints

  const PREFIX := "pgscan-v1"

  function Strings(keys: seq<string>): seq<Json> {
    seq(|keys|, i requires 0 <= i < |keys| => Str(keys[i]))
  }

  function Document(target: string, completed: seq<string>, pending: Action): Json {
    Obj(map["version" := Num(1), "target" := Str(target), "completed" := List(Strings(completed)),
            "pending" := Obj(Payload(pending))])
  }

  function Encode(codec: Codec, target: string, completed: seq<string>, pending: Action): string {
    var raw := codec.dump(Document(target, completed, pending));
    PREFIX + "." + Base64.Strip(Base64.Encode(raw)) + "." + codec.tag(raw)
  }

  /** What stands before and after the first dot. */
  function Cut(text: string): Option<(string, string)> {
    if text == "" then None
    else if text[0] == '.' then Some(("", text[1..]))
    else
      match Cut(text[1..])
      case None => None
      case Some((before, after)) => Some(([text[0]] + before, after))
  }

  predicate Ascii(text: string) {
    forall c | c in text :: c as int < 128
  }

  function AllStrings(items: seq<Json>): Option<seq<string>> {
    if items == [] then Some([])
    else
      match AllStrings(items[1..])
      case None => None
      case Some(rest) => if items[0].Str? then Some([items[0].text] + rest) else None
  }

  function ReadDocument(target: string, v: Json): Result<(seq<string>, Action), CheckpointError> {
    if !v.Obj? || Field(v.fields, "version") !in [Num(1), Bool(true)] || Field(v.fields, "target") != Str(target) then
      Err(OtherTarget)
    else
      var completed, pending := Field(v.fields, "completed"), Field(v.fields, "pending");
      if !completed.List? || !pending.Obj? then Err(BadFields)
      else
        match AllStrings(completed.items)
        case None => Err(BadFields)
        case Some(keys) =>
          match FromPayload(pending.fields)
          case Err(e) => Err(e)
          case Ok(action) => Ok((keys, action))
  }

  function Decode(codec: Codec, target: string, checkpoint: string): Result<(seq<string>, Action), CheckpointError> {
    match Cut(checkpoint)
    case None => Err(Malformed)
    case Some((prefix, rest)) =>
      match Cut(rest)
      case None => Err(Malformed)
      case Some((encoded, tag)) =>
        if !Ascii(encoded) then Err(Malformed)
        else
          match Base64.Decode(Base64.Restore(encoded))
          case None => Err(Malformed)
          case Some(raw) =>
            match codec.load(raw)
            case None => Err(Malformed)
            case Some(v) =>
              if prefix != PREFIX || codec.tag(raw) != tag then Err(BadIntegrity)
              else ReadDocument(target, v)
  }

  // -------------------------------------------------------------- round trip

  lemma {:induction false} CutAt(before: string, after: string)
    requires '.' !in before
    ensures Cut(before + "." + after) == Some((before, after))
  {
    if before == "" {
      assert before + "." + after == "." + after && ("." + after)[1..] == after;
    } else {
      assert (before + "." + after)[1..] == before[1..] + "." + after;
      CutAt(before[1..], after);
      assert [before[0]] + before[1..] == before;
    }
  }

  lemma {:induction false} StringsBack(keys: seq<string>)
    ensures AllStrings(Strings(keys)) == Some(keys)
  {
    if keys != [] {
      assert Strings(keys)[1..] == Strings(keys[1..]);
      StringsBack(keys[1..]);
      assert [keys[0]] + keys[1..] == keys;
    }
  }

  lemma DocumentBack(target: string, reader: string, completed: seq<string>, pending: Action)
    ensures ReadDocument(reader, Document(target, completed, pending))
            == if reader == target then Ok((completed, pending)) else Err(OtherTarget)
  {
    hide Payload, FromPayload;
    StringsBack(completed);
    PayloadRoundTrip(pending);
    var fields := Document(target, completed, pending).fields;
    assert |"version"| == 7 && |"target"| == 6 && |"completed"| == 9 && "pending"[0] != "version"[0];
    assert Field(fields, "version") == Num(1) && Field(fields, "target") == Str(target);
    assert Field(fields, "completed") == List(Strings(completed)) && Field(fields, "pending") == Obj(Payload(pending));
  }

  lemma {:induction false} EncodedIsAscii(raw: Bytes)
    ensures Ascii(Base64.Unpadded(raw))
    decreases |raw|
  {
    hide Base64.First, Base64.Second, Base64.Third, Base64.Fourth;
    if |raw| > 2 { EncodedIsAscii(raw[3..]); }
  }

  /** A checkpoint gives back its history and its next action, for every history
      and every combination of optional fields, to a session of its own target
      and to no other. */
  lemma {:induction false} CheckpointRoundTrip(
    codec: Codec, target: string, reader: string, completed: seq<string>, pending: Action)
    requires Inverse(codec)
    ensures Decode(codec, reader, Encode(codec, target, completed, pending))
            == if reader == target then Ok((completed, pending)) else Err(OtherTarget)
  {
    hide Base64.Encode, Base64.Decode, Base64.Strip, Base64.Restore, Document, ReadDocument, Cut, Base64.Unpadded;
    var v := Document(target, completed, pending);
    var raw := codec.dump(v);
    var encoded := Base64.Strip(Base64.Encode(raw));
    Base64.RoundTrip(raw);
    Base64.StripEncoded(raw);
    EncodedIsAscii(raw);
    DocumentBack(target, reader, completed, pending);
    var text := Encode(codec, target, completed, pending);
    assert text == PREFIX + "." + (encoded + "." + codec.tag(raw));
    CutAt(PREFIX, encoded + "." + codec.tag(raw));
    CutAt(encoded, codec.tag(raw));
    assert codec.load(raw) == Some(v);
  }

  /** So different histories and different next actions have different cursors. */
  lemma {:induction false} CheckpointsDiffer(
    codec: Codec, target: string, completed: seq<string>, pending: Action, completed': seq<string>, pending': Action)
    requires Inverse(codec)
    requires Encode(codec, target, completed, pending) == Encode(codec, target, completed', pending')
    ensures completed == completed' && pending == pending'
  {
    hide Encode, Decode;
    CheckpointRoundTrip(codec, target, target, completed, pending);
    CheckpointRoundTrip(codec, target, target, completed', pending');
  }

  // ------------------------------------------------------ what is trusted

  /** The document is about this target and names this history and next action. */
  ghost predicate Says(v: Json, target: string, completed: seq<string>, pending: Action) {
    && v.Obj?
    && "version" in v.fields && (v.fields["version"] == Num(1) || v.fields["version"] == Bool(true))
    && "target" in v.fields && v.fields["target"] == Str(target)
    && "completed" in v.fields && v.fields["completed"].List?
    && |v.fields["completed"].items| == |completed|
    && (forall i | 0 <= i < |completed| :: v.fields["completed"].items[i] == Str(completed[i]))
    && "pending" in v.fields && v.fields["pending"].Obj?
    && var next := v.fields["pending"].fields;
       && "kind" in next && next["kind"] == Str(pending.kind)
       && "key" in next && next["key"] == Str(pending.key)
       && OptionalIs(next, "selector", pending.selector)
       && OptionalIs(next, "text", pending.text)
  }

  ghost predicate OptionalIs(fields: map<string, Json>, name: string, value: Option<string>) {
    if name in fields && fields[name] != Null then value.Some? && fields[name] == Str(value.value) else value == None
  }

  lemma {:induction false} AllStringsAre(items: seq<Json>, keys: seq<string>)
    ensures AllStrings(items) == Some(keys)
            <==> |items| == |keys| && forall i | 0 <= i < |keys| :: items[i] == Str(keys[i])
  {
    if items != [] && keys != [] {
      AllStringsAre(items[1..], keys[1..]);
      assert keys == [keys[0]] + keys[1..];
      if AllStrings(items) == Some(keys) {
        var rest := AllStrings(items[1..]).value;
        assert ([items[0].text] + rest)[1..] == rest;
        forall i | 0 <= i < |keys| ensures items[i] == Str(keys[i]) {
          if i > 0 { assert items[i] == items[1..][i - 1] && keys[i] == keys[1..][i - 1]; }
        }
      }
    }
  }

  lemma ReadSays(target: string, v: Json, completed: seq<string>, pending: Action)
    ensures ReadDocument(target, v) == Ok((completed, pending)) <==> Says(v, target, completed, pending)
  {
    if v.Obj? && "completed" in v.fields && v.fields["completed"].List? {
      AllStringsAre(v.fields["completed"].items, completed);
    }
  }

  lemma {:induction false} CutIs(text: string, before: string, after: string)
    ensures Cut(text) == Some((before, after)) <==> '.' !in before && text == before + "." + after
  {
    if Cut(text) == Some((before, after)) { CutBack(text); }
    if '.' !in before && text == before + "." + after { CutAt(before, after); }
  }

  lemma {:induction false} CutBack(text: string)
    requires Cut(text).Some?
    ensures var (before, after) := Cut(text).value; '.' !in before && text == before + "." + after
  {
    if text[0] == '.' {
      assert text == "." + text[1..];
    } else {
      CutBack(text[1..]);
      assert text == [text[0]] + text[1..];
    }
  }

  /** A text is taken as a checkpoint exactly when it has the prefix, an ASCII part
      that decodes to a document about this target, and that document's own tag;
      then history and next action are the document's. */
  lemma {:induction false} TrustedText(
    codec: Codec, target: string, text: string, completed: seq<string>, pending: Action)
    ensures Decode(codec, target, text) == Ok((completed, pending))
            <==> exists encoded: string, raw: Bytes ::
                   && text == "pgscan-v1" + "." + (encoded + "." + codec.tag(raw)) && '.' !in encoded
                   && (forall c | c in encoded :: c as int < 128)
                   && Base64.Decode(Base64.Restore(encoded)) == Some(raw)
                   && codec.load(raw).Some? && Says(codec.load(raw).value, target, completed, pending)
  {
    hide Base64.Decode, Base64.Restore, ReadDocument, Cut, Says;
    if Decode(codec, target, text) == Ok((completed, pending)) {
      var (prefix, rest) := Cut(text).value;
      var (encoded, tag) := Cut(rest).value;
      CutIs(text, prefix, rest);
      CutIs(rest, encoded, tag);
      var raw := Base64.Decode(Base64.Restore(encoded)).value;
      ReadSays(target, codec.load(raw).value, completed, pending);
      assert text == "pgscan-v1" + "." + (encoded + "." + codec.tag(raw));
    }
    if encoded: string, raw: Bytes :|
         && text == "pgscan-v1" + "." + (encoded + "." + codec.tag(raw)) && '.' !in encoded
         && (forall c | c in encoded :: c as int < 128)
         && Base64.Decode(Base64.Restore(encoded)) == Some(raw)
         && codec.load(raw).Some? && Says(codec.load(raw).value, target, completed, pending)
    {
      CutIs(text, "pgscan-v1", encoded + "." + codec.tag(raw));
      CutIs(encoded + "." + codec.tag(raw), encoded, codec.tag(raw));
      ReadSays(target, codec.load(raw).value, completed, pending);
    }
  }
}
