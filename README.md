# deconf-cli core, modelled in Dafny

deconf-cli is an interactive script for configuring a deCONZ Zigbee gateway
over its REST API. It finds the gateway, gets an API key, and saves the
connection data to `deconz_gateway_data.json`. It lists the sensors and edits
two fields: `duration` on `ZHAPresence` sensors and `sensitivity` on
`ZHAVibration` sensors. This project models the script's deterministic core
and proves properties of it. The network, terminal and file system are
represented by values passed in.

- `wrappers.dfy`, `json.dfy`: `Option` and decoded JSON values. A JSON object
  is an ordered member list, so `dict.items()` order is kept. Sensor ids are
  decimal strings, and `DecimalValue` is `int()` for them.
- `entity_filter.dfy` (`list_configurables`): the filter as a function
  `Configurables`, and the nested loops as the method `ListConfigurables`,
  proved equal to it. Lemmas give the form, order and multiplicity of the
  entries.
- `modify.dfy` (`modify_config`): the linear scan `Modify` over the cached
  entries. `ModifyCharacterised` checks it against an independent
  description built from `Matching` and `FirstOk`.
- `session.dfy`: the `Gateway` fields as a `Session` value. It also holds
  `load_gw_data` (`Load`), `save_gateway_info` (`Save`), one pass of the
  `while True` loop (`Step`) and the loop itself (`RunFrom`, `Program`). The
  invariant `Valid` is preserved by every pass.
- `gateway.dfy`: the class `Gateway`, with the script's fields and methods
  that assign them. `Store` is the saved file. `Run` is the script from
  start to exit. Each method is proved against the matching function in
  `session.dfy` or, for `ModifyConfig`, in `modify.dfy`.

Inputs that come from outside are parameters. The `Env` of a pass carries:

- the record returned by discovery;
- the key request's result (`Granted(username)` or `Refused`);
- the sensor listing (`Listed(map)` or `BadStatus(code)`);
- the id typed for command 6;
- one `Reply(value, ok)` per PUT: the value typed at the prompt and whether
  the PUT returned ok.

The saved file is `Option<Info>`, where `None` means the file is not found.
Printed text becomes an `Output` value.

### What the script does that one might not expect

The model follows the script as written in these places:

- One might expect a ready session to always hold a key. But a refused key
  request makes `get_api_key` return `None` (deconf-cli.py:61-64). Command 2
  still stores that as the key, saves `apikey: null` and sets `state_ok`
  (deconf-cli.py:79, 179-182). `RefusedKeyIsSaved` states this.
- The menu offers "7) Purge saved gateway information" (deconf-cli.py:27).
  No branch of the loop handles 7, so it reaches the quitting `else`
  (deconf-cli.py:206-208). `Quits` covers every number outside 0..6.
- One might expect an entry to hold exactly one of `duration` and
  `sensitivity`. The filter sets one field for each type string found among
  a record's member values. It works on one shared dict and appends it each
  time (deconf-cli.py:100-114). So `Entry` keeps both fields optional, and
  `RecordEntriesShape` states the multiplicity.
- One might expect a failed discovery to be reported. `discover_gateway`
  then returns `None`, and line 177 crashes on it (deconf-cli.py:43-52,
  175-178). The model requires a discovered record with address and port.

## Model

| member | source | states |
|---|---|---|
| EntityFilter.ListConfigurables | deconf-cli.py:96-116 | the nested loops over the records and their members return exactly the filter `Configurables` of the sensor map |
| EntityFilter.ConfigurablesFromInput | deconf-cli.py:100-114 | every returned entry comes from some input record: id is `int` of that record's key, name is its `name`, its type string occurs among the record's values, and `duration`/`sensitivity` are that record's `config.duration`/`config.sensitivity` |
| EntityFilter.RecordEntriesShape | deconf-cli.py:101-114 | a record adds one entry per member value equal to a type string, all copies being the same entry; it adds nothing exactly when no member value is a type string |
| EntityFilter.ConfigurablesAppend | deconf-cli.py:100-114 | filtering a concatenated map gives the concatenation of the two filters, so the output keeps the input order |
| EntityFilter.ConfigurablesSplit | deconf-cli.py:100-114 | record `i`'s entries sit between the entries of the records before it and those after it |
| EntityFilter.DroppedRecord | deconf-cli.py:100-114 | inserting anywhere a record none of whose values is a type string leaves the result unchanged |
| EntityFilter.SingleTypeField | deconf-cli.py:102-114 | a record whose `type` is a type string, with no other type-string value, yields exactly one entry with its parsed id, its name and only the config field of its kind |
| EntityFilter.PresenceBesideOther | deconf-cli.py:100-116 | a `ZHAPresence` sensor with `config.duration = 30` next to a `ZHAOther` sensor gives just one presence entry, with duration 30 |
| ModifyLookup.ModifyCharacterised | deconf-cli.py:123-142 | one PUT per entry with the entered id, in list order, to that id, with field `duration` for presence and `sensitivity` for vibration; the PUTs stop after the first ok reply, which prints "Success!"; when no PUT succeeds, all matching entries get one and the not-in-list message is printed |
| ModifyLookup.NoMatchNoRequest | deconf-cli.py:123-141 | an id that no cached entry has produces no PUT and the message "ID <id> is not in the list", whatever the replies |
| DeconfCli.Gateway.ModifyConfig | deconf-cli.py:119-142 | the scan with early return issues the requests and prints the message that `Modify` describes; it has no modifies clause, so no field of the gateway (its cache included) changes |
| DeconfCli.Gateway.constructor | deconf-cli.py:31-38 | a new gateway has empty info, empty address, port and key strings, no entries, and is not ready |
| DeconfCli.Gateway.LoadGwData | deconf-cli.py:145-156 | the new fields are `Load` of the old ones and the file: an existing file becomes `info`, its address, port and key become `ip`, `port` and `key`, and the session becomes ready; a missing file changes nothing |
| DeconfCli.Gateway.SaveGatewayInfo | deconf-cli.py:74-81 | `info` gains `apikey = key` in place, the file then holds exactly the updated `info`, and the session is ready |
| DeconfCli.Gateway.Dispatch | deconf-cli.py:166-208 | one loop pass changes the fields and the file as `Step` says, and keeps the session invariant |
| DeconfCli.Run | deconf-cli.py:163-208 | creating the gateway, loading and then looping until a command quits gives the state, file and outputs of `Program`, ending in a valid session |
| GatewaySession.LoadEffect | deconf-cli.py:145-156 | loading takes info, address, port and key from an existing file and sets ready, keeps the cache, changes nothing on a missing file, and keeps the invariant |
| GatewaySession.SaveEffect | deconf-cli.py:74-79 | saving puts the key into `info`, writes exactly the new `info`, sets ready and changes nothing else |
| GatewaySession.SaveThenLoadKey | deconf-cli.py:74-79 | when `info` has an address and a port, loading the saved file into any session gives back the saved key |
| GatewaySession.SaveThenLoad | deconf-cli.py:145-153 | for a valid session with information, loading what was saved gives back the saved session exactly; a restarted program that decodes the saved map unchanged gets the same info, address, port, key and readiness |
| GatewaySession.DiscoverEffect | deconf-cli.py:174-178 | command 1 overwrites `info`, `ip` and `port` with the discovered record and leaves the key, the rest of the session and the file as they were |
| GatewaySession.AcquireKeyEffect | deconf-cli.py:179-184 | command 2 with empty `info` only reports the missing information; otherwise it sets the key to the request's result, merges it into `info`, writes the file and sets ready, changing nothing else |
| GatewaySession.RefusedKeyIsSaved | deconf-cli.py:179-182 | after a refused key request command 2 still sets ready, with the key `null`, and writes `apikey: null` |
| GatewaySession.GuardedCommands | deconf-cli.py:185-205 | commands 3 to 6 on a session that is not ready report the missing information and change neither the session nor the file |
| GatewaySession.RefreshEffect | deconf-cli.py:195-205 | commands 5 and 6 on a ready session replace the cache with the filter of the fresh listing and change nothing else; command 6 runs the modify scan on that cache |
| GatewaySession.ReadOnlyCommands | deconf-cli.py:166-208 | commands 0, 3, 4 and every quitting input change neither the session nor the file |
| GatewaySession.QuittingIff | deconf-cli.py:166-208 | a pass reports "Quitting" exactly for non-numeric input and numbers outside 0..6, command 7 included |
| GatewaySession.FileWrittenOnlyBySave | deconf-cli.py:166-208 | only command 2 on a session with information changes the file, and when it acts the file then holds exactly the new `info` |
| GatewaySession.StepKeepsValid | deconf-cli.py:166-208 | every pass keeps the invariant: ready only with information, and `ip`/`port` equal to the address and port in `info` |
| GatewaySession.RunKeepsValid | deconf-cli.py:166-208 | any number of passes keeps the invariant |
| GatewaySession.RunStopsAtQuit | deconf-cli.py:166-208 | the loop reports once per prompt read; "Quitting" is reported exactly for quitting inputs, only as the last report, and whenever the loop stops before the script ends |
| GatewaySession.ProgramValid | deconf-cli.py:163-208 | every state the program reaches, from a fresh gateway through loading and any number of passes, is valid |

## Left out

- Network calls are not modelled. `discover_gateway`, `get_api_key`, the GET
  in `list_entities` and the PUTs in `modify_config` go through `requests`.
  Their results are fields of `Env`.
- Crash paths are excluded by preconditions rather than modelled:
  - a `ConnectionError` in any request, including the unbound `response` in
    `list_entities`;
  - discovery returning `None` or an empty array;
  - a listing with a non-ok status reaching `json.loads` in commands 5 and 6;
  - a missing `name`, `config`, `duration`, `sensitivity`,
    `internalipaddress`, `internalport` or `apikey` member (a `KeyError`);
  - a non-numeric entity id at the command-6 prompt.

  A non-ok listing in command 4 does not crash, and is modelled as
  `BadStatus`.
- JSON text and files are not modelled. `json.dump`/`json.load` formatting
  and `open` are library I/O. The saved file is modelled as the map it decodes to, and the
  `json.dumps`/`json.loads` round trip in `list_entities` is the identity.
  JSON numbers are integers; floats are not modelled.
- Terminal I/O is not modelled: the banner, the menu, the prompt texts, the
  current-value prompt in `modify_config`, the printed wording, and
  `sys.exit`. Typed values are parameters, and messages are `Output` values.
- `purge_json` only prompts and prints "Purged". It changes no state.
- `info` is a `map`, so the key order of the saved and printed JSON is not
  modelled.
- `DecimalValue` models `int()` only for strings of decimal digits. The
  signs, surrounding whitespace and underscores that `int()` also accepts are
  not modelled, because the gateway's ids are plain digits.
- Repeated keys are not modelled. A `Fields` list can hold two members with
  the same key, but no decoded dict can: `json` keeps only the last value,
  and `dict.items()` visits the key once. For such lists, `Get` picks the
  first member and the filter visits both. That result does not correspond
  to anything the script can do.
- SaveThenLoad: the restart half assumes the file decodes to the map that
  was written. The script writes UTF-8 with `ensure_ascii=False`
  (deconf-cli.py:77-78). It reads the file back with the platform's default
  encoding (deconf-cli.py:147). Non-ASCII text on a locale that is not UTF-8
  can come back altered, or can make `json.load` fail at startup. The model
  does not capture this encoding mismatch.
- The class attributes of `Gateway` are shared between instances, and the
  script makes only one instance. `DeconfCli.Gateway` holds them as instance
  fields.
- Aliasing of the shared `entry` dict is modelled by value. While a record
  is being visited, the list holds that many copies of the dict's current
  state. Object identity of the copies is not modelled.
- Run: its precondition asks every scripted input to be well-formed, even
  when the state at that pass would not use it. `Dispatch` asks only what
  the current state needs.
