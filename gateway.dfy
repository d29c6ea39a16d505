/**
 * The script's state and its operations as they run: the `Gateway` object
 * whose fields the operations assign, the saved gateway file, and the
 * command loop.
 */
module DeconfCli {
  import opened Wrappers
  import opened JsonValues
  import opened EntityFilter
  import opened ModifyLookup
  import opened GatewaySession

  /** The saved gateway file: its decoded contents, or `None` when it does not exist. */
  class Store {
    var saved: Option<Info>

    constructor (saved: Option<Info>)
      ensures this.saved == saved
    {
      this.saved := saved;
    }
  }

  class Gateway {
    const filename := "deconz_gateway_data.json"
    var info: Info
    var configurables: seq<Entry>
    var ip: Json
    var port: Json
    var key: Json
    var stateOk: bool

    /** The object's fields as a session value. */
    function State(): Session
      reads this
    {
      Session(info, ip, port, key, configurables, stateOk)
    }

    constructor ()
      ensures State() == Initial()
    {
      info := map[];
      configurables := [];
      ip, port, key := Str(""), Str(""), Str("");
      stateOk := false;
    }

    /** `load_gw_data`: take over the saved file when there is one. */
    method LoadGwData(store: Store)
      requires store.saved.Some? ==> FileOk(store.saved.value)
      modifies this
      ensures State() == Load(old(State()), store.saved)
    {
      if store.saved.Some? {
        var gwData := store.saved.value;
        info := gwData;
        ip := gwData[IP_FIELD];
        port := gwData[PORT_FIELD];
        key := gwData[KEY_FIELD];
        stateOk := true;
      }
    }

    /** `save_gateway_info`: merge the key into `info` in place and write `info` out. */
    method SaveGatewayInfo(store: Store)
      modifies this, store
      ensures State() == Save(old(State())).session
      ensures store.saved == Some(Save(old(State())).written)
    {
      info := info[KEY_FIELD := key];
      store.saved := Some(info);
      stateOk := true;
    }

    /**
     * `modify_config`: the scan over the cached entries for `id`; `replies`
     * supplies, for each matching entry in turn, the value typed at the
     * prompt and the PUT's status. Reads the object and changes nothing.
     */
    method ModifyConfig(id: int, replies: seq<Reply>) returns (requests: seq<Request>, message: Message)
      requires |replies| >= |Matching(configurables, id)|
      ensures Outcome(requests, message) == Modify(configurables, id, replies)
    {
      requests := [];
      var used := 0;
      var i := 0;
      while i < |configurables|
        invariant i <= |configurables| && used <= |replies|
        invariant |replies| - used >= |Matching(configurables[i..], id)|
        invariant Modify(configurables, id, replies) ==
                    After(requests, Modify(configurables[i..], id, replies[used..]))
      {
        var entry := configurables[i];
        assert configurables[i..][1..] == configurables[i + 1..];
        if entry.id == id {
          var reply := replies[used];
          assert replies[used..][1..] == replies[used + 1..];
          if entry.kind == Presence {
            requests := requests + [Put(id, "duration", reply.value)];
          } else {
            requests := requests + [Put(id, "sensitivity", reply.value)];
          }
          used := used + 1;
          if reply.ok {
            message := Success;
            return;
          }
        }
        i := i + 1;
      }
      message := NotInList(id);
    }

    /** One pass of the `while True` loop; `store` is the saved file. */
    method Dispatch(cmd: Command, env: Env, store: Store) returns (out: Output)
      requires StepOk(State(), cmd, env)
      modifies this, store
      ensures StepResult(State(), store.saved, out) == Step(old(State()), old(store.saved), cmd, env)
      ensures Valid(old(State())) ==> Valid(State())
    {
      ghost var s0, f0 := State(), store.saved;
      match cmd {
        case NotANumber =>
          out := Quitting;
        case Number(n) =>
          if n == 0 {
            out := Help;
          } else if n == 1 {
            var gwInfo := env.discovered;
            info := gwInfo;
            ip := gwInfo[IP_FIELD];
            port := gwInfo[PORT_FIELD];
            out := Discovered;
          } else if n == 2 {
            if info != map[] {
              key := NewKey(env.keyReply);
              SaveGatewayInfo(store);
              out := KeySaved(key, info);
            } else {
              out := Missing;
            }
          } else if n == 3 {
            out := if stateOk then InfoShown(info) else Missing;
          } else if n == 4 {
            out := if stateOk then EntitiesShown(env.sensors) else Missing;
          } else if n == 5 {
            if stateOk {
              configurables := ListConfigurables(env.sensors.entities);
              out := ConfigurablesShown(configurables);
            } else {
              out := Missing;
            }
          } else if n == 6 {
            if stateOk {
              configurables := ListConfigurables(env.sensors.entities);
              var requests, message := ModifyConfig(env.modifyId, env.replies);
              out := Modified(configurables, Outcome(requests, message));
            } else {
              out := Missing;
            }
          } else {
            out := Quitting;
          }
      }
      if Valid(s0) {
        StepKeepsValid(s0, f0, cmd, env);
      }
    }
  }

  /**
   * The script from start to exit: a fresh gateway, the saved data loaded,
   * then one pass per prompt until a command quits or the prompts run out.
   */
  method Run(store: Store, script: seq<(Command, Env)>) returns (gw: Gateway, outs: seq<Output>)
    requires store.saved.Some? ==> FileOk(store.saved.value)
    requires forall k :: 0 <= k < |script| ==> InputOk(script[k].0, script[k].1)
    modifies store
    ensures fresh(gw)
    ensures RunResult(gw.State(), store.saved, outs) == Program(old(store.saved), script)
    ensures Valid(gw.State())
  {
    gw := new Gateway();
    gw.LoadGwData(store);
    LoadEffect(Initial(), store.saved);
    outs := [];
    var i := 0;
    while i < |script|
      invariant i <= |script|
      invariant forall k :: 0 <= k < |script| - i ==> InputOk(script[i..][k].0, script[i..][k].1)
      invariant Valid(gw.State())
      invariant Program(old(store.saved), script) ==
                  var r := RunFrom(gw.State(), store.saved, script[i..]);
                  RunResult(r.session, r.file, outs + r.outs)
    {
      assert script[i..][0] == script[i];
      assert script[i..][1..] == script[i + 1..];
      var out := gw.Dispatch(script[i].0, script[i].1, store);
      outs := outs + [out];
      if out == Quitting {
        return;
      }
      i := i + 1;
    }
  }
}
