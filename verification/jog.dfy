/** The jog package: a Message envelope built from a level and an arbitrary
    value, the `io.Writer` adapter that turns raw log lines into Messages, the
    level resolver for decoded JSON objects, and the dispatch to a Logger.

    Everything the Go code obtains from its runtime (the caller's frame, the
    clock, `encoding/json`, `fmt.Sprint`) is handed in through an `Env`, and
    the Logger is a function from Message to Reply. */
module Jog {
  import opened Values

  /** Go's `type Level string`: any string is a Level, the package names five. */
  datatype Level = Level(name: string)

  const CRITICAL := Level("critical")
  const ERROR := Level("error")
  const WARNING := Level("warning")
  const INFO := Level("info")
  const DEBUG := Level("debug")

  /** One of the five levels the package defines. */
  predicate Known(l: Level) {
    l == CRITICAL || l == ERROR || l == WARNING || l == INFO || l == DEBUG
  }

  /** The caller's file and line as `runtime.Caller` reports them. */
  datatype Frame = Frame(file: string, line: int)

  /** The envelope handed to a Logger; `time` is the UTC instant as a number. */
  datatype Message = Message(data: Value, level: Level, file: string, line: int, time: int)

  /** Go's `Logger` interface: `Log(m *Message) (int, error)`. */
  type Logger = Message -> Reply

  /** What the Go code takes from its runtime: the caller's frame (None when
      `runtime.Caller` fails), the current time, and the library calls
      `json.Marshal`, `fmt.Sprint` and `json.Unmarshal` into an `interface{}`. */
  datatype Env = Env(
    frame: Option<Frame>,
    now: int,
    marshal: Value -> Result<seq<byte>>,
    sprint: Value -> string,
    decode: seq<byte> -> Option<Json>)

  // ---------------------------------------------------------------------------
  // Level resolver

  /** The `switch` of `levelFrom`: only a string equal to a known level's name
      selects that level; any other value, of any type, gives INFO. */
  function LevelNamed(v: Json): (l: Level)
    ensures Known(l)
    ensures v.Str? && Known(Level(v.s)) ==> l == Level(v.s)
    ensures !(v.Str? && Known(Level(v.s))) ==> l == INFO
  {
    if v == Str("critical") then CRITICAL
    else if v == Str("error") then ERROR
    else if v == Str("warning") then WARNING
    else if v == Str("debug") then DEBUG
    else INFO
  }

  /** `levelFrom`: resolves the level of a decoded value and returns the value
      with its "level" key deleted (Go deletes it from the map in place). */
  function LevelFrom(o: Json): (r: (Level, Json))
    ensures Known(r.0)
    ensures !(o.Obj? && "level" in o.fields) ==> r == (INFO, o)
    ensures o.Obj? && "level" in o.fields ==>
      && r.0 == LevelNamed(o.fields["level"])
      && r.1.Obj?
      && r.1.fields.Keys == o.fields.Keys - {"level"}
      && forall k :: k in r.1.fields ==> r.1.fields[k] == o.fields[k]
  {
    match o
    case Obj(fields) =>
      if "level" in fields then (LevelNamed(fields["level"]), Obj(fields - {"level"}))
      else (INFO, o)
    case _ => (INFO, o)
  }

  /** After resolution no "level" key is left, so resolving again changes nothing. */
  lemma LevelFromIdempotent(o: Json)
    ensures LevelFrom(LevelFrom(o).1) == (INFO, LevelFrom(o).1)
  {
  }

  /** Exactly the "level" key is removed: putting it back restores the input. */
  lemma LevelFromRestore(o: Json)
    requires o.Obj? && "level" in o.fields
    ensures Obj(LevelFrom(o).1.fields["level" := o.fields["level"]]) == o
  {
  }

  // ---------------------------------------------------------------------------
  // Message construction

  /** The struct literal and call-site lookup of `newMessage`: location
      falls back to "???" and 0 when no frame is available. */
  function Stamp(l: Level, d: Value, frame: Option<Frame>, now: int): (m: Message)
    ensures m.data == d && m.level == l && m.time == now
    ensures frame.None? ==> m.file == "???" && m.line == 0
    ensures frame.Some? ==> m.file == frame.value.file && m.line == frame.value.line
  {
    match frame
    case None => Message(d, l, "???", 0, now)
    case Some(f) => Message(d, l, f.file, f.line, now)
  }

  /** An encoding with content: marshalling succeeded with at least 3 bytes. */
  predicate Substantial(enc: Result<seq<byte>>) {
    enc.Ok? && |enc.value| >= 3
  }

  /** A payload `newMessage` keeps as it is: nil, a string, or a value whose
      JSON encoding is substantial. */
  predicate Normalized(d: Value, marshal: Value -> Result<seq<byte>>) {
    d == Nil || (d.Plain? && d.j.Str?) || Substantial(marshal(d))
  }

  /** The payload rules of `newMessage`: nil and strings stay, anything else
      is probed with `json.Marshal` and replaced by `fmt.Sprint` of itself
      when that fails or yields fewer than 3 bytes. */
  function Normalize(d: Value, marshal: Value -> Result<seq<byte>>, sprint: Value -> string): (r: Value)
    ensures Normalized(r, marshal)
    ensures r == d <==> Normalized(d, marshal)
    ensures r != d ==> r == Plain(Str(sprint(d)))
  {
    if d == Nil then d
    else if d.Plain? && d.j.Str? then d
    else if !Substantial(marshal(d)) then Plain(Str(sprint(d)))
    else d
  }

  /** Normalising twice is normalising once. */
  lemma NormalizeIdempotent(d: Value, marshal: Value -> Result<seq<byte>>, sprint: Value -> string)
    ensures Normalize(Normalize(d, marshal, sprint), marshal, sprint) == Normalize(d, marshal, sprint)
  {
  }

  /** `newMessage`: the level is stored unvalidated, the location comes from
      the frame, and the payload is normalised. */
  function NewMessage(l: Level, d: Value, env: Env): (m: Message)
    ensures m.level == l && m.time == env.now
    ensures env.frame.None? ==> m.file == "???" && m.line == 0
    ensures env.frame.Some? ==> m.file == env.frame.value.file && m.line == env.frame.value.line
    ensures Normalized(m.data, env.marshal)
    ensures m.data == d <==> Normalized(d, env.marshal)
    ensures m.data != d ==> m.data == Plain(Str(env.sprint(d)))
  {
    Stamp(l, Normalize(d, env.marshal, env.sprint), env.frame, env.now)
  }

  // ---------------------------------------------------------------------------
  // The io.Writer adapter

  const Newline: byte := 0x0A
  const OpenBrace: byte := 0x7B
  const CloseBrace: byte := 0x7D

  /** `Write` drops one trailing newline, the one `log.Output` appends. */
  function TrimNewline(p: seq<byte>): (t: seq<byte>)
    ensures t <= p && |p| - 1 <= |t| <= |p|
    ensures |t| < |p| <==> |p| > 0 && p[|p| - 1] == Newline
  {
    var l := |p| - 1;
    if |p| > 0 && p[l] == Newline then p[0..l] else p
  }

  /** Only one newline goes: a second one stays part of the message. */
  lemma TrimNewlineOnce(q: seq<byte>)
    ensures TrimNewline(q + [Newline]) == q
    ensures TrimNewline(q + [Newline, Newline]) == q + [Newline]
  {
  }

  /** The shape test of `Write`, written with Go's `l = len - 1`: it needs at
      least three bytes, so "{}" is not JSON-like. */
  function JsonLike(t: seq<byte>): (b: bool)
    ensures b <==> |t| >= 3 && t[0] == OpenBrace && t[|t| - 1] == CloseBrace
  {
    var l := |t| - 1;
    l > 1 && t[0] == OpenBrace && t[l] == CloseBrace
  }

  /** The Message `Write` builds for the bytes `p`: the decoded value minus
      its "level" key at the level it named when the trimmed bytes look like
      JSON and decode; otherwise the trimmed bytes as a string at INFO. */
  function WriteMessage(p: seq<byte>, env: Env): (m: Message)
    ensures m.time == env.now
    ensures env.frame.None? ==> m.file == "???" && m.line == 0
    ensures env.frame.Some? ==> m.file == env.frame.value.file && m.line == env.frame.value.line
    ensures Known(m.level)
    ensures var t := TrimNewline(p);
      JsonLike(t) && env.decode(t).Some? ==>
        (m.level, m.data) == (LevelFrom(env.decode(t).value).0, Plain(LevelFrom(env.decode(t).value).1))
    ensures var t := TrimNewline(p);
      !(JsonLike(t) && env.decode(t).Some?) ==>
        m.level == INFO && m.data.Plain? && m.data.j.Str?
        && IsByteString(m.data.j.s) && StringToBytes(m.data.j.s) == t
  {
    var m := Stamp(INFO, Nil, env.frame, env.now);
    var t := TrimNewline(p);
    if JsonLike(t) && env.decode(t).Some? then
      var (level, data) := LevelFrom(env.decode(t).value);
      m.(data := Plain(data), level := level)
    else
      BytesStringRoundTrip(t);
      m.(data := Plain(Str(BytesToString(t))))
  }

  /** An empty write, or one holding only the newline, is still logged: as
      the empty string at INFO. */
  lemma WriteEmpty(env: Env)
    ensures WriteMessage([], env).data == Plain(Str(""))
    ensures WriteMessage([Newline], env).data == Plain(Str(""))
    ensures WriteMessage([], env).level == INFO && WriteMessage([Newline], env).level == INFO
  {
  }

  /** `Jog.Write`: build the Message and hand it to the Logger. */
  function Write(logger: Logger, p: seq<byte>, env: Env): (r: Reply)
    ensures var m := WriteMessage(p, env);
      && r.err == logger(m).err
      && r.n == (if logger(m).err.Some? then 0 else logger(m).n)
  {
    Dispatch(logger, WriteMessage(p, env))
  }

  /** The `io.Writer` contract `Jog` claims to implement: the count lies in
      0..len(p), and a count short of len(p) comes with an error. */
  predicate WriterContract(p: seq<byte>, r: Reply) {
    0 <= r.n <= |p| && (r.n < |p| ==> r.err.Some?)
  }

  /** As written, `Write` keeps the `io.Writer` contract exactly when the
      Logger fails or happens to report `len(p)`; a Logger that reports the
      length of its own encoding, or -1, breaks it. */
  lemma WriteWriterContractIff(logger: Logger, p: seq<byte>, env: Env)
    ensures var reply := logger(WriteMessage(p, env));
      WriterContract(p, Write(logger, p, env)) <==> reply.err.Some? || reply.n == |p|
  {
  }

  /** `Write` as the `io.Writer` contract intends it: the same Message goes to
      the Logger and its error is returned, but success reports all of `p`
      as written rather than the Logger's own count. */
  function WriterWrite(logger: Logger, p: seq<byte>, env: Env): (r: Reply)
    ensures WriterContract(p, r)
    ensures r.err == Write(logger, p, env).err
    ensures r.err.None? ==> r.n == |p|
  {
    var reply := Dispatch(logger, WriteMessage(p, env));
    if reply.err.Some? then reply else Reply(|p|, None)
  }

  /** A decoded object reaches the Logger without its "level" key, every other
      field intact, at the level the key named. */
  lemma WriteDecodedObject(p: seq<byte>, env: Env, fields: map<string, Json>)
    requires JsonLike(TrimNewline(p)) && env.decode(TrimNewline(p)) == Some(Obj(fields))
    ensures var m := WriteMessage(p, env);
      && m.data == Plain(Obj(fields - {"level"}))
      && m.level == (if "level" in fields then LevelNamed(fields["level"]) else INFO)
  {
    var r := LevelFrom(Obj(fields));
    assert r.1.fields == fields - {"level"};
  }

  /** Whatever the bytes, a payload object handed on never repeats the level. */
  lemma WriteNeverDuplicatesLevel(p: seq<byte>, env: Env)
    ensures var m := WriteMessage(p, env);
      m.data.Plain? && m.data.j.Obj? ==> "level" !in m.data.j.fields
  {
  }

  // ---------------------------------------------------------------------------
  // Dispatch and the level wrappers

  /** `Jog.write`: a Logger error becomes `(0, err)`; on success the Logger's
      count is returned as it is, whatever its sign. */
  function Dispatch(logger: Logger, m: Message): (r: Reply)
    ensures r.err == logger(m).err
    ensures r.err.Some? ==> r.n == 0
    ensures r.err.None? ==> r == logger(m)
  {
    var reply := logger(m);
    if reply.err.Some? then Reply(0, reply.err) else reply
  }

  /** A reply already in dispatched form passes through dispatch again unchanged. */
  lemma DispatchIdempotent(logger: Logger, m: Message)
    ensures Dispatch(m' => Dispatch(logger, m'), m) == Dispatch(logger, m)
  {
  }

  /** The level key is stripped on the `Write` path only: an object handed to
      `Log` keeps its "level" key, whatever the Message's own level. */
  lemma LogKeepsLevelKey(l: Level, env: Env)
    requires Substantial(env.marshal(Plain(Obj(map["level" := Str("error")]))))
    ensures var m := NewMessage(l, Plain(Obj(map["level" := Str("error")])), env);
      && m.data == Plain(Obj(map["level" := Str("error")]))
      && "level" in m.data.j.fields
      && m.level == l
  {
  }

  /** `Jog.Log`: a Message at level `l` for `o`, dispatched. */
  function Log(logger: Logger, l: Level, o: Value, env: Env): (r: Reply)
    ensures var m := NewMessage(l, o, env);
      && r.err == logger(m).err
      && r.n == (if logger(m).err.Some? then 0 else logger(m).n)
  {
    Dispatch(logger, NewMessage(l, o, env))
  }

  /** The error a level wrapper returns: that of the Logger on a Message at
      that level; the count is dropped. */
  function LogError(logger: Logger, l: Level, o: Value, env: Env): (e: Option<GoError>)
    ensures e == logger(NewMessage(l, o, env)).err
  {
    Log(logger, l, o, env).err
  }

  function Critical(logger: Logger, o: Value, env: Env): (e: Option<GoError>)
    ensures e == logger(NewMessage(CRITICAL, o, env)).err
  {
    LogError(logger, CRITICAL, o, env)
  }

  function Error(logger: Logger, o: Value, env: Env): (e: Option<GoError>)
    ensures e == logger(NewMessage(ERROR, o, env)).err
  {
    LogError(logger, ERROR, o, env)
  }

  function Warning(logger: Logger, o: Value, env: Env): (e: Option<GoError>)
    ensures e == logger(NewMessage(WARNING, o, env)).err
  {
    LogError(logger, WARNING, o, env)
  }

  function Info(logger: Logger, o: Value, env: Env): (e: Option<GoError>)
    ensures e == logger(NewMessage(INFO, o, env)).err
  {
    LogError(logger, INFO, o, env)
  }

  function Debug(logger: Logger, o: Value, env: Env): (e: Option<GoError>)
    ensures e == logger(NewMessage(DEBUG, o, env)).err
  {
    LogError(logger, DEBUG, o, env)
  }
}
