/**
 * The gateway session as a value: what `load_gw_data`, `save_gateway_info`
 * and one pass of the command loop do to it, and what holds across a whole
 * run of the loop.
 */
module GatewaySession {
  import opened Wrappers
  import opened JsonValues
  import opened EntityFilter
  import opened ModifyLookup

  const IP_FIELD := "internalipaddress"
  const PORT_FIELD := "internalport"
  const KEY_FIELD := "apikey"

  /** Decoded gateway metadata, as discovered or as read back from the saved file. */
  type Info = map<string, Json>

  /** The fields of the `Gateway` object. */
  datatype Session = Session(info: Info, ip: Json, port: Json, key: Json,
                             configurables: seq<Entry>, stateOk: bool)

  /** A fresh `Gateway()`: empty info, empty strings, no entries, not ready. */
  function Initial(): Session {
    Session(map[], Str(""), Str(""), Str(""), [], false)
  }

  /**
   * What every reachable session satisfies: it is ready only with gateway
   * information, and whenever there is information, `ip` and `port` are its
   * address and port.
   */
  predicate Valid(s: Session) {
    && (s.stateOk ==> s.info != map[])
    && (s.info != map[] ==>
          IP_FIELD in s.info && PORT_FIELD in s.info &&
          s.ip == s.info[IP_FIELD] && s.port == s.info[PORT_FIELD])
  }

  /** A saved file the loader can read: it holds address, port and key. */
  predicate FileOk(m: Info) {
    IP_FIELD in m && PORT_FIELD in m && KEY_FIELD in m
  }

  /** `load_gw_data`; `file` is `None` when the saved file does not exist. */
  function Load(s: Session, file: Option<Info>): Session
    requires file.Some? ==> FileOk(file.value)
  {
    match file
    case None => s
    case Some(m) => s.(info := m, ip := m[IP_FIELD], port := m[PORT_FIELD], key := m[KEY_FIELD], stateOk := true)
  }

  /** The session after saving, and the map written to the file. */
  datatype Saved = Saved(session: Session, written: Info)

  /** `save_gateway_info`: the key is merged into `info` itself, which is then written out. */
  function Save(s: Session): Saved {
    var info := s.info[KEY_FIELD := s.key];
    Saved(s.(info := info, stateOk := true), info)
  }

  /** A line read at the command prompt: `int(...)` of it, or a `ValueError`. */
  datatype Command = NotANumber | Number(n: int)

  /** The key request's result; a refused request makes `get_api_key` return `None`. */
  datatype KeyReply = Granted(username: Json) | Refused

  /** The sensor listing's result: the decoded map or a status that is not ok. */
  datatype SensorsReply = Listed(entities: Sensors) | BadStatus(code: int)

  /**
   * What the network and the operator supply to one pass of the loop: the
   * discovered gateway record, the key request's result, the sensor listing,
   * the id typed for command 6 and the replies to its value prompts.
   */
  datatype Env = Env(discovered: Info, keyReply: KeyReply, sensors: SensorsReply,
                     modifyId: int, replies: seq<Reply>)

  /** What one pass of the loop reports. */
  datatype Output =
    | Help
    | Discovered
    | KeySaved(key: Json, written: Info)
    | Missing
    | InfoShown(info: Info)
    | EntitiesShown(reply: SensorsReply)
    | ConfigurablesShown(entries: seq<Entry>)
    | Modified(entries: seq<Entry>, outcome: Outcome)
    | Quitting

  datatype StepResult = StepResult(session: Session, file: Option<Info>, out: Output)

  /** `gateway.key = get_api_key(gateway)`: the username, or `None` on a refusal. */
  function NewKey(r: KeyReply): Json {
    match r
    case Granted(u) => u
    case Refused => Null
  }

  /** The commands that act only on a ready session. */
  predicate Guarded(cmd: Command) {
    cmd.Number? && 3 <= cmd.n <= 6
  }

  /** The commands that end the loop: non-numeric input or a number no branch handles. */
  predicate Quits(cmd: Command) {
    cmd.NotANumber? || cmd.n < 0 || 6 < cmd.n
  }

  /** Inputs on which the pass does not crash in `session`. */
  predicate StepOk(s: Session, cmd: Command, env: Env) {
    && (cmd == Number(1) ==> IP_FIELD in env.discovered && PORT_FIELD in env.discovered)
    && (s.stateOk && (cmd == Number(5) || cmd == Number(6)) ==>
          env.sensors.Listed? && SensorsOk(env.sensors.entities))
    && (s.stateOk && cmd == Number(6) ==>
          |env.replies| >= |Matching(Configurables(env.sensors.entities), env.modifyId)|)
  }

  /** Inputs on which the pass does not crash, whatever the session. */
  predicate InputOk(cmd: Command, env: Env) {
    && (cmd == Number(1) ==> IP_FIELD in env.discovered && PORT_FIELD in env.discovered)
    && (cmd == Number(5) || cmd == Number(6) ==>
          env.sensors.Listed? && SensorsOk(env.sensors.entities))
    && (cmd == Number(6) ==>
          |env.replies| >= |Matching(Configurables(env.sensors.entities), env.modifyId)|)
  }

  /** One pass of the command loop. */
  function Step(s: Session, file: Option<Info>, cmd: Command, env: Env): StepResult
    requires StepOk(s, cmd, env)
  {
    match cmd
    case NotANumber => StepResult(s, file, Quitting)
    case Number(n) =>
      if n == 0 then StepResult(s, file, Help)
      else if n == 1 then
        var d := env.discovered;
        StepResult(s.(info := d, ip := d[IP_FIELD], port := d[PORT_FIELD]), file, Discovered)
      else if n == 2 then
        if s.info != map[] then
          var saved := Save(s.(key := NewKey(env.keyReply)));
          StepResult(saved.session, Some(saved.written), KeySaved(saved.session.key, saved.written))
        else StepResult(s, file, Missing)
      else if n == 3 then
        if s.stateOk then StepResult(s, file, InfoShown(s.info)) else StepResult(s, file, Missing)
      else if n == 4 then
        if s.stateOk then StepResult(s, file, EntitiesShown(env.sensors)) else StepResult(s, file, Missing)
      else if n == 5 then
        if s.stateOk then
          var c := Configurables(env.sensors.entities);
          StepResult(s.(configurables := c), file, ConfigurablesShown(c))
        else StepResult(s, file, Missing)
      else if n == 6 then
        if s.stateOk then
          var c := Configurables(env.sensors.entities);
          StepResult(s.(configurables := c), file, Modified(c, Modify(c, env.modifyId, env.replies)))
        else StepResult(s, file, Missing)
      else StepResult(s, file, Quitting)
  }

  datatype RunResult = RunResult(session: Session, file: Option<Info>, outs: seq<Output>)

  /** The command loop over a script of prompts, until it quits or the script ends. */
  function RunFrom(s: Session, file: Option<Info>, script: seq<(Command, Env)>): RunResult
    requires forall k :: 0 <= k < |script| ==> InputOk(script[k].0, script[k].1)
    decreases |script|
  {
    if script == [] then RunResult(s, file, [])
    else
      assert InputOk(script[0].0, script[0].1);
      assert forall k :: 0 < k < |script| ==> script[1..][k - 1] == script[k];
      var r := Step(s, file, script[0].0, script[0].1);
      if r.out == Quitting then RunResult(r.session, r.file, [Quitting])
      else
        var rest := RunFrom(r.session, r.file, script[1..]);
        RunResult(rest.session, rest.file, [r.out] + rest.outs)
  }

  /** The whole program: a fresh gateway, the saved data loaded, then the loop. */
  function Program(file: Option<Info>, script: seq<(Command, Env)>): RunResult
    requires file.Some? ==> FileOk(file.value)
    requires forall k :: 0 <= k < |script| ==> InputOk(script[k].0, script[k].1)
  {
    RunFrom(Load(Initial(), file), file, script)
  }

  // ---------------------------------------------------------------- load and save

  /**
   * Loading an existing file takes `info` from it and address, port and key
   * from its members, and makes the session ready; a missing file changes
   * nothing. Either way the result is a valid session.
   */
  lemma LoadEffect(s: Session, file: Option<Info>)
    requires Valid(s) && (file.Some? ==> FileOk(file.value))
    ensures var r := Load(s, file);
            && Valid(r)
            && (file.None? ==> r == s)
            && (file.Some? ==>
                  && r.info == file.value && r.stateOk
                  && r.ip == file.value[IP_FIELD] && r.port == file.value[PORT_FIELD]
                  && r.key == file.value[KEY_FIELD]
                  && r.configurables == s.configurables)
  {
  }

  /**
   * Saving merges the key into `info`, writes exactly that map and makes the
   * session ready; nothing else changes.
   */
  lemma SaveEffect(s: Session)
    ensures var sv := Save(s);
            && sv.session.info == s.info[KEY_FIELD := s.key]
            && sv.written == sv.session.info
            && sv.session.info[KEY_FIELD] == sv.session.key == s.key
            && sv.session.stateOk
            && sv.session.(info := s.info, stateOk := s.stateOk) == s
  {
  }

  /**
   * Saving then loading, in this process or in the next one, reproduces the
   * key whenever `info` holds an address and a port.
   */
  lemma SaveThenLoadKey(s: Session, t: Session)
    requires IP_FIELD in s.info && PORT_FIELD in s.info
    ensures FileOk(Save(s).written)
    ensures Load(t, Some(Save(s).written)).key == s.key
  {
  }

  /**
   * On a valid session with gateway information (the only kind the loop
   * saves), loading what was saved reproduces the saved session exactly, and
   * a restarted program gets back the same info, address, port and key.
   */
  lemma SaveThenLoad(s: Session)
    requires Valid(s) && s.info != map[]
    ensures Valid(Save(s).session)
    ensures FileOk(Save(s).written)
    ensures Load(Save(s).session, Some(Save(s).written)) == Save(s).session
    ensures Load(Initial(), Some(Save(s).written)) == Save(s).session.(configurables := [])
  {
  }

  // ---------------------------------------------------------------- one pass of the loop

  /** Command 1 overwrites `info`, `ip` and `port` with the discovered record and keeps the key. */
  lemma DiscoverEffect(s: Session, file: Option<Info>, env: Env)
    requires StepOk(s, Number(1), env)
    ensures var r := Step(s, file, Number(1), env);
            && r.session == s.(info := env.discovered, ip := env.discovered[IP_FIELD],
                               port := env.discovered[PORT_FIELD])
            && r.session.key == s.key
            && r.file == file
  {
  }

  /**
   * Command 2 acts only when `info` is not empty: it then takes the key the
   * request returned (`null` after a refusal), saves, and is ready.
   * Otherwise it reports the missing information and changes nothing.
   */
  lemma AcquireKeyEffect(s: Session, file: Option<Info>, env: Env)
    ensures var r := Step(s, file, Number(2), env);
            && (s.info == map[] ==> r == StepResult(s, file, Missing))
            && (s.info != map[] ==>
                  && r.session.key == NewKey(env.keyReply)
                  && r.session.stateOk
                  && r.session.info == s.info[KEY_FIELD := NewKey(env.keyReply)]
                  && r.file == Some(r.session.info)
                  && r.session.(key := s.key, info := s.info, stateOk := s.stateOk) == s)
  {
  }

  /**
   * A refused key request still counts as acquiring a key: the session
   * becomes ready with a `null` key, and `apikey: null` is written out.
   */
  lemma RefusedKeyIsSaved(s: Session, file: Option<Info>, env: Env)
    requires s.info != map[] && env.keyReply == Refused
    ensures var r := Step(s, file, Number(2), env);
            && r.session.stateOk && r.session.key == Null
            && r.file == Some(s.info[KEY_FIELD := Null])
  {
  }

  /** Commands 3 to 6 on a session that is not ready report the missing information and change nothing. */
  lemma GuardedCommands(s: Session, file: Option<Info>, cmd: Command, env: Env)
    requires Guarded(cmd) && !s.stateOk
    ensures StepOk(s, cmd, env)
    ensures Step(s, file, cmd, env) == StepResult(s, file, Missing)
  {
  }

  /**
   * Commands 5 and 6 on a ready session replace the cached entries with the
   * filter of the fresh listing, and change nothing else; command 6 then runs
   * the modify scan on that new cache and leaves it as it is.
   */
  lemma RefreshEffect(s: Session, file: Option<Info>, cmd: Command, env: Env)
    requires (cmd == Number(5) || cmd == Number(6)) && s.stateOk && StepOk(s, cmd, env)
    ensures var r := Step(s, file, cmd, env);
            var c := Configurables(env.sensors.entities);
            && r.session == s.(configurables := c)
            && r.file == file
            && (cmd == Number(6) ==> r.out == Modified(c, Modify(c, env.modifyId, env.replies)))
  {
  }

  /** Commands 0, 3 and 4, and every command that quits, change no state. */
  lemma ReadOnlyCommands(s: Session, file: Option<Info>, cmd: Command, env: Env)
    requires cmd == Number(0) || cmd == Number(3) || cmd == Number(4) || Quits(cmd)
    ensures StepOk(s, cmd, env)
    ensures Step(s, file, cmd, env).session == s && Step(s, file, cmd, env).file == file
  {
  }

  /** A pass reports "Quitting" exactly for the commands that quit. */
  lemma QuittingIff(s: Session, file: Option<Info>, cmd: Command, env: Env)
    requires StepOk(s, cmd, env)
    ensures Step(s, file, cmd, env).out == Quitting <==> Quits(cmd)
  {
  }

  /** Only command 2 writes the file, and it does whenever it acts. */
  lemma FileWrittenOnlyBySave(s: Session, file: Option<Info>, cmd: Command, env: Env)
    requires StepOk(s, cmd, env)
    ensures Step(s, file, cmd, env).file != file ==> cmd == Number(2) && s.info != map[]
    ensures cmd == Number(2) && s.info != map[] ==>
              Step(s, file, cmd, env).file == Some(Step(s, file, cmd, env).session.info)
  {
  }

  /** One pass keeps the session valid. */
  lemma StepKeepsValid(s: Session, file: Option<Info>, cmd: Command, env: Env)
    requires Valid(s) && StepOk(s, cmd, env)
    ensures Valid(Step(s, file, cmd, env).session)
  {
  }

  // ---------------------------------------------------------------- the whole loop

  /** The loop keeps the session valid however long it runs. */
  lemma {:induction false} RunKeepsValid(s: Session, file: Option<Info>, script: seq<(Command, Env)>)
    requires Valid(s)
    requires forall k :: 0 <= k < |script| ==> InputOk(script[k].0, script[k].1)
    ensures Valid(RunFrom(s, file, script).session)
    decreases |script|
  {
    if script != [] {
      assert InputOk(script[0].0, script[0].1);
      assert forall k :: 0 < k < |script| ==> script[1..][k - 1] == script[k];
      StepKeepsValid(s, file, script[0].0, script[0].1);
      var r := Step(s, file, script[0].0, script[0].1);
      if r.out != Quitting {
        RunKeepsValid(r.session, r.file, script[1..]);
      }
    }
  }

  /**
   * The loop reports once per prompt it reads; "Quitting" can only be the
   * last report, and it is the last exactly when the loop stopped before the
   * end of the script.
   */
  lemma {:induction false} RunStopsAtQuit(s: Session, file: Option<Info>, script: seq<(Command, Env)>)
    requires forall k :: 0 <= k < |script| ==> InputOk(script[k].0, script[k].1)
    ensures var outs := RunFrom(s, file, script).outs;
            && |outs| <= |script|
            && (forall k :: 0 <= k < |outs| - 1 ==> outs[k] != Quitting)
            && (|outs| < |script| ==> outs[|outs| - 1] == Quitting)
            && (forall k :: 0 <= k < |outs| ==> (outs[k] == Quitting <==> Quits(script[k].0)))
    decreases |script|
  {
    if script != [] {
      assert InputOk(script[0].0, script[0].1);
      assert forall k :: 0 < k < |script| ==> script[1..][k - 1] == script[k];
      var r := Step(s, file, script[0].0, script[0].1);
      QuittingIff(s, file, script[0].0, script[0].1);
      if r.out != Quitting {
        RunStopsAtQuit(r.session, r.file, script[1..]);
      }
    }
  }

  /** Every state the program reaches is valid. */
  lemma ProgramValid(file: Option<Info>, script: seq<(Command, Env)>)
    requires file.Some? ==> FileOk(file.value)
    requires forall k :: 0 <= k < |script| ==> InputOk(script[k].0, script[k].1)
    ensures Valid(Program(file, script).session)
  {
    LoadEffect(Initial(), file);
    RunKeepsValid(Load(Initial(), file), file, script);
  }
}
