/** The table-driven cases of jog_test.go, stated against the model with
    concrete collaborators standing in for `encoding/json` and `fmt`. */
module JogExamples {
  import opened Values
  import opened Jog

  /** The test logger records nothing here and always answers `(-1, nil)`. */
  const TestLogger: Logger := m => Reply(-1, None)

  /** No caller frame is available; the frame does not affect the payload or the level. */
  const NoFrame: Option<Frame> := None

  // The values of the newMessage table: dummy1{""}, dummy1{"blah blah"} and
  // dummy2, a struct with a String method. Their fields are unexported, so
  // each marshals to "{}".
  const Dummy1Empty := Custom(1)
  const Dummy1Blah := Custom(2)
  const Dummy2 := Custom(3)

  function TestMarshal(v: Value): Result<seq<byte>> {
    if v.Custom? then Ok([OpenBrace, CloseBrace]) else Ok(StringToBytes("\"x\""))
  }

  function TestSprint(v: Value): string {
    if v == Dummy1Empty then "{}"
    else if v == Dummy1Blah then "{blah blah}"
    else if v == Dummy2 then "dummy2"
    else "?"
  }

  const TestEnv := Env(NoFrame, 0, TestMarshal, TestSprint, t => None)

  /** jog_test.go:10-14: the exact lowercase names select their level. */
  lemma LevelFromNames()
    ensures LevelFrom(Obj(map["level" := Str("debug")])).0 == DEBUG
    ensures LevelFrom(Obj(map["level" := Str("info")])).0 == INFO
    ensures LevelFrom(Obj(map["level" := Str("warning")])).0 == WARNING
    ensures LevelFrom(Obj(map["level" := Str("error")])).0 == ERROR
    ensures LevelFrom(Obj(map["level" := Str("critical")])).0 == CRITICAL
  {
  }

  /** jog_test.go:16-25: every other value, of any type, gives INFO. */
  lemma LevelFromInvalid()
    ensures LevelFrom(Obj(map["level" := Str("bob")])).0 == INFO
    ensures LevelFrom(Obj(map["level" := Str("DEBUG")])).0 == INFO
    ensures LevelFrom(Obj(map["level" := Str("Jack")])).0 == INFO
    ensures LevelFrom(Obj(map["level" := Str("    ")])).0 == INFO
    ensures LevelFrom(Obj(map["level" := Str("-1")])).0 == INFO
    ensures LevelFrom(Obj(map["level" := Str("1")])).0 == INFO
    ensures LevelFrom(Obj(map["level" := Num(1.0)])).0 == INFO
    ensures LevelFrom(Obj(map["level" := Arr([Str("critical")])])).0 == INFO
    ensures LevelFrom(Obj(map["level" := Null])).0 == INFO
  {
  }

  /** jog_test.go:28-38: strings and nil are kept, the dummies fall back to
      their printed form because "{}" is under three bytes. */
  lemma NewMessageTable()
    ensures NewMessage(DEBUG, Plain(Str("blah blah")), TestEnv).data == Plain(Str("blah blah"))
    ensures NewMessage(CRITICAL, Nil, TestEnv).data == Nil
    ensures NewMessage(CRITICAL, Dummy1Empty, TestEnv).data == Plain(Str("{}"))
    ensures NewMessage(CRITICAL, Dummy1Blah, TestEnv).data == Plain(Str("{blah blah}"))
    ensures NewMessage(CRITICAL, Dummy2, TestEnv).data == Plain(Str("dummy2"))
  {
  }

  // The text inputs of the write table, jog_test.go:42-44.
  const PlainText := "blah blah"
  const MalformedText := "{blah\""
  const UnterminatedObject := "{\"blah\": \"blah\""

  /** A line without a trailing newline that does not look like an object is
      stored as that very text, at INFO, whatever the decoder. */
  lemma WriteText(s: string, env: Env)
    requires IsByteString(s) && !JsonLike(StringToBytes(s))
    requires s == [] || s[|s| - 1] != '\n'
    ensures WriteMessage(StringToBytes(s), env).data == Plain(Str(s))
    ensures WriteMessage(StringToBytes(s), env).level == INFO
  {
    var p := StringToBytes(s);
    StringBytesRoundTrip(s);
    assert p != [] ==> p[|p| - 1] as int == s[|s| - 1] as int;
    assert TrimNewline(p) == p;
    var m := WriteMessage(p, env);
    assert m.data == Plain(Str(BytesToString(p))) && m.level == INFO;
  }

  /** jog_test.go:42: plain text is stored as it is, at INFO. */
  lemma WritePlainText(env: Env)
    ensures WriteMessage(StringToBytes(PlainText), env).data == Plain(Str(PlainText))
    ensures WriteMessage(StringToBytes(PlainText), env).level == INFO
  {
    WriteText(PlainText, env);
  }

  /** jog_test.go:43: `{blah"` is not JSON-like, whatever the decoder, and is
      stored as `{blah"`; the table's `{blah` is never compared, since the
      test only inspects map payloads (jog_test.go:122-131). */
  lemma WriteMalformedText(env: Env)
    ensures WriteMessage(StringToBytes(MalformedText), env).data == Plain(Str(MalformedText))
    ensures WriteMessage(StringToBytes(MalformedText), env).level == INFO
  {
    WriteText(MalformedText, env);
  }

  /** jog_test.go:44: an unterminated object is stored as text. */
  lemma WriteUnterminatedObject(env: Env)
    ensures WriteMessage(StringToBytes(UnterminatedObject), env).data == Plain(Str(UnterminatedObject))
    ensures WriteMessage(StringToBytes(UnterminatedObject), env).level == INFO
  {
    UnterminatedObjectIsBytes();
    var p := StringToBytes(UnterminatedObject);
    assert p[|p| - 1] as int == '"' as int;
    WriteText(UnterminatedObject, env);
  }

  lemma UnterminatedObjectIsBytes()
    ensures IsByteString(UnterminatedObject)
  {
  }

  /** jog_test.go:46-51: whatever bytes decode to the table's objects, the
      payload loses its "level" key and the key sets the level. */
  lemma WriteJsonTable(p: seq<byte>, env: Env)
    requires JsonLike(TrimNewline(p))
    ensures env.decode(TrimNewline(p)) == Some(Obj(map["message" := Str("blah blah")])) ==>
      && WriteMessage(p, env).data == Plain(Obj(map["message" := Str("blah blah")]))
      && WriteMessage(p, env).level == INFO
    ensures env.decode(TrimNewline(p)) == Some(Obj(map["message" := Str("blah blah"), "level" := Str("error")])) ==>
      && WriteMessage(p, env).data == Plain(Obj(map["message" := Str("blah blah")]))
      && WriteMessage(p, env).level == ERROR
    ensures env.decode(TrimNewline(p)) == Some(Obj(map["level" := Str("critical")])) ==>
      && WriteMessage(p, env).data == Plain(Obj(map[]))
      && WriteMessage(p, env).level == CRITICAL
    ensures env.decode(TrimNewline(p)) == Some(Obj(map["message" := Obj(map["innerMessage" := Str("blah")]), "level" := Str("debug")])) ==>
      && WriteMessage(p, env).data == Plain(Obj(map["message" := Obj(map["innerMessage" := Str("blah")])]))
      && WriteMessage(p, env).level == DEBUG
  {
    var m := map["message" := Str("blah blah"), "level" := Str("error")];
    assert m - {"level"} == map["message" := Str("blah blah")];
    var c := map["level" := Str("critical")];
    assert c - {"level"} == map[];
    var n := map["message" := Obj(map["innerMessage" := Str("blah")]), "level" := Str("debug")];
    assert n - {"level"} == map["message" := Obj(map["innerMessage" := Str("blah")])];
  }

  /** jog_test.go:88-91, 117: the test logger's `-1` comes back unchanged,
      which no `io.Writer` may report, and "{}" is too short to be decoded
      even by a decoder that accepts it. */
  lemma WriteCountAndShortBraces(env: Env)
    ensures Write(TestLogger, [OpenBrace, CloseBrace], env) == Reply(-1, None)
    ensures !WriterContract([OpenBrace, CloseBrace], Write(TestLogger, [OpenBrace, CloseBrace], env))
    ensures WriteMessage([OpenBrace, CloseBrace], env).data == Plain(Str("{}"))
  {
  }

  /** With the count corrected, the same write reports its two bytes. */
  lemma WriterWriteCount(env: Env)
    ensures WriterWrite(TestLogger, [OpenBrace, CloseBrace], env) == Reply(2, None)
  {
  }
}
