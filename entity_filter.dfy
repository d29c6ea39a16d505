/**
 * The filter that turns the gateway's sensor map into the list of
 * configurable entities (`list_configurables`): presence sensors expose
 * `duration`, vibration sensors expose `sensitivity`.
 */
module EntityFilter {
  import opened Wrappers
  import opened JsonValues

  const PRESENCE_TYPE := "ZHAPresence"
  const VIBRATION_TYPE := "ZHAVibration"

  datatype Kind = Presence | Vibration

  /** The type string the gateway uses for a kind. */
  function TypeName(k: Kind): string {
    match k
    case Presence => PRESENCE_TYPE
    case Vibration => VIBRATION_TYPE
  }

  /** The configuration field that can be edited for a kind. */
  function FieldName(k: Kind): string {
    match k
    case Presence => "duration"
    case Vibration => "sensitivity"
  }

  /** The kind a record member value announces, if it is one of the two type strings. */
  function KindOf(v: Json): (r: Option<Kind>)
    ensures r.Some? ==> v == Str(TypeName(r.value))
    ensures r.None? ==> v != Str(PRESENCE_TYPE) && v != Str(VIBRATION_TYPE)
  {
    if v == Str(PRESENCE_TYPE) then Some(Presence)
    else if v == Str(VIBRATION_TYPE) then Some(Vibration)
    else None
  }

  /**
   * One configurable entry. `kind` is the type string last written into the
   * entry; `duration` and `sensitivity` are present when a presence, resp.
   * vibration, type string was met in the record.
   */
  datatype Entry = Entry(id: int, name: Json, kind: Kind, duration: Option<Json>, sensitivity: Option<Json>)

  /** The sensor map `id string -> record`, in the order the gateway listed it. */
  type Sensors = seq<(string, Fields)>

  /** `record['config'][field]`, when `record['config']` is an object holding `field`. */
  function ConfigMember(rec: Fields, field: string): Option<Json> {
    match Get(rec, "config")
    case Some(Obj(cfg)) => Get(cfg, field)
    case _ => None
  }

  /**
   * What the filter reads from a record in which a type string occurs: a
   * numeric id, a `name`, and the config field of each kind that occurs.
   */
  predicate RecordOk(ids: string, rec: Fields) {
    && (HasValue(rec, Str(PRESENCE_TYPE)) || HasValue(rec, Str(VIBRATION_TYPE)) ==>
          IsDecimal(ids) && Get(rec, "name").Some?)
    && (HasValue(rec, Str(PRESENCE_TYPE)) ==> ConfigMember(rec, "duration").Some?)
    && (HasValue(rec, Str(VIBRATION_TYPE)) ==> ConfigMember(rec, "sensitivity").Some?)
  }

  predicate SensorsOk(es: Sensors) {
    forall i :: 0 <= i < |es| ==> RecordOk(es[i].0, es[i].1)
  }

  /** True when some member value of `rec` is one of the two type strings. */
  predicate HasMatch(rec: Fields) {
    exists i :: 0 <= i < |rec| && KindOf(rec[i].1).Some?
  }

  /** The entry after the record member with value `v` has been visited. */
  function Visit(prev: Option<Entry>, ids: string, rec: Fields, v: Json): Option<Entry>
    requires RecordOk(ids, rec) && HasValue(rec, v)
  {
    match KindOf(v)
    case None => prev
    case Some(Presence) =>
      Some(Entry(DecimalValue(ids), Get(rec, "name").value, Presence,
                 ConfigMember(rec, "duration"),
                 if prev.Some? then prev.value.sensitivity else None))
    case Some(Vibration) =>
      Some(Entry(DecimalValue(ids), Get(rec, "name").value, Vibration,
                 if prev.Some? then prev.value.duration else None,
                 ConfigMember(rec, "sensitivity")))
  }

  /** The state of the record's entry after its first `j` members. */
  function EntryAfter(ids: string, rec: Fields, j: nat): Option<Entry>
    requires j <= |rec| && RecordOk(ids, rec)
  {
    if j == 0 then None
    else
      assert HasValue(rec, rec[j - 1].1);
      Visit(EntryAfter(ids, rec, j - 1), ids, rec, rec[j - 1].1)
  }

  /** The number of the first `j` members whose value is a type string. */
  function MatchCount(rec: Fields, j: nat): nat
    requires j <= |rec|
  {
    if j == 0 then 0
    else MatchCount(rec, j - 1) + (if KindOf(rec[j - 1].1).Some? then 1 else 0)
  }

  /** `k` references to the same entry, seen through its current state. */
  function Block(e: Option<Entry>, k: nat): seq<Entry> {
    if e.None? then [] else seq(k, _ => e.value)
  }

  /**
   * What one record contributes: the entry is appended once per member whose
   * value is a type string, and every append adds the same entry.
   */
  function RecordEntries(ids: string, rec: Fields): seq<Entry>
    requires RecordOk(ids, rec)
  {
    Block(EntryAfter(ids, rec, |rec|), MatchCount(rec, |rec|))
  }

  /** The filter's result: the records' contributions, in the map's order. */
  function Configurables(es: Sensors): seq<Entry>
    requires SensorsOk(es)
  {
    if es == [] then []
    else
      var n := |es| - 1;
      assert SensorsOk(es[..n]) by { assert forall i :: 0 <= i < n ==> es[..n][i] == es[i]; }
      Configurables(es[..n]) + RecordEntries(es[n].0, es[n].1)
  }

  /** The filter as the source runs it: nested loops over the records and their members. */
  method ListConfigurables(entities: Sensors) returns (configurables: seq<Entry>)
    requires SensorsOk(entities)
    ensures configurables == Configurables(entities)
  {
    configurables := [];
    var i := 0;
    while i < |entities|
      invariant i <= |entities|
      invariant SensorsOk(entities[..i])
      invariant configurables == Configurables(entities[..i])
    {
      var ids, config := entities[i].0, entities[i].1;
      var before := configurables;
      var entry: Option<Entry> := None;
      var count := 0;
      var j := 0;
      while j < |config|
        invariant j <= |config|
        invariant entry == EntryAfter(ids, config, j)
        invariant count == MatchCount(config, j)
        invariant configurables == before + Block(entry, count)
      {
        var value := config[j].1;
        assert HasValue(config, value);
        if value == Str(PRESENCE_TYPE) {
          entry := Some(Entry(DecimalValue(ids), Get(config, "name").value, Presence,
                              ConfigMember(config, "duration"),
                              if entry.Some? then entry.value.sensitivity else None));
          count := count + 1;
          configurables := before + Block(entry, count);
        } else if value == Str(VIBRATION_TYPE) {
          entry := Some(Entry(DecimalValue(ids), Get(config, "name").value, Vibration,
                              if entry.Some? then entry.value.duration else None,
                              ConfigMember(config, "sensitivity")));
          count := count + 1;
          configurables := before + Block(entry, count);
        }
        j := j + 1;
      }
      assert entities[..i + 1][..i] == entities[..i];
      i := i + 1;
      assert SensorsOk(entities[..i]) by {
        assert forall k :: 0 <= k < i ==> entities[..i][k] == entities[k];
      }
    }
    assert entities[..i] == entities;
  }

  /**
   * The entry a record yields when `kind` is the only type string in it: its
   * parsed id, its name, and the config field of that kind.
   */
  function Fresh(ids: string, rec: Fields, kind: Kind): Entry
    requires RecordOk(ids, rec) && HasValue(rec, Str(TypeName(kind)))
  {
    Entry(DecimalValue(ids), Get(rec, "name").value, kind,
          if kind == Presence then ConfigMember(rec, "duration") else None,
          if kind == Vibration then ConfigMember(rec, "sensitivity") else None)
  }

  /**
   * `e` is made of what `rec`, listed under `ids`, holds: id `int(ids)`, the
   * record's name, a type string that occurs in the record, and each config
   * field taken from the record's `config` member.
   */
  predicate FromRecord(e: Entry, ids: string, rec: Fields)
    requires RecordOk(ids, rec)
  {
    && HasValue(rec, Str(TypeName(e.kind)))
    && e.id == DecimalValue(ids)
    && Get(rec, "name") == Some(e.name)
    && (e.kind == Presence ==> e.duration == ConfigMember(rec, "duration"))
    && (e.kind == Vibration ==> e.sensitivity == ConfigMember(rec, "sensitivity"))
    && (e.duration.Some? ==> HasValue(rec, Str(PRESENCE_TYPE)) && e.duration == ConfigMember(rec, "duration"))
    && (e.sensitivity.Some? ==> HasValue(rec, Str(VIBRATION_TYPE)) && e.sensitivity == ConfigMember(rec, "sensitivity"))
  }

  /** Some of the first `j` members carries a type string exactly when the count is positive. */
  lemma {:induction false} MatchCountPositive(rec: Fields, j: nat)
    requires j <= |rec|
    ensures MatchCount(rec, j) > 0 <==> exists i :: 0 <= i < j && KindOf(rec[i].1).Some?
  {
    if j > 0 {
      MatchCountPositive(rec, j - 1);
    }
  }

  /** The entry dict stays empty exactly as long as no type string has been met. */
  lemma {:induction false} EntryAfterNone(ids: string, rec: Fields, j: nat)
    requires j <= |rec| && RecordOk(ids, rec)
    ensures EntryAfter(ids, rec, j).None? <==> MatchCount(rec, j) == 0
  {
    if j > 0 {
      EntryAfterNone(ids, rec, j - 1);
    }
  }

  /** Whatever state the entry reaches, it is made of the record's own data. */
  lemma {:induction false} EntryAfterFromRecord(ids: string, rec: Fields, j: nat)
    requires j <= |rec| && RecordOk(ids, rec)
    ensures EntryAfter(ids, rec, j).Some? ==> FromRecord(EntryAfter(ids, rec, j).value, ids, rec)
  {
    if j > 0 {
      EntryAfterFromRecord(ids, rec, j - 1);
      var v := rec[j - 1].1;
      assert HasValue(rec, v);
    }
  }

  /**
   * A record contributes one copy of its entry per member value that is a
   * type string, so nothing when there is none; every copy is made of the
   * record's own data.
   */
  lemma RecordEntriesShape(ids: string, rec: Fields)
    requires RecordOk(ids, rec)
    ensures |RecordEntries(ids, rec)| == MatchCount(rec, |rec|)
    ensures RecordEntries(ids, rec) == [] <==> !HasMatch(rec)
    ensures forall k :: 0 <= k < |RecordEntries(ids, rec)| ==>
              RecordEntries(ids, rec)[k] == RecordEntries(ids, rec)[0] &&
              FromRecord(RecordEntries(ids, rec)[k], ids, rec)
  {
    EntryAfterNone(ids, rec, |rec|);
    EntryAfterFromRecord(ids, rec, |rec|);
    MatchCountPositive(rec, |rec|);
  }

  /** The filter is computed record by record: a list split in two filters to the two results joined. */
  lemma {:induction false} ConfigurablesAppend(xs: Sensors, ys: Sensors)
    requires SensorsOk(xs) && SensorsOk(ys)
    ensures SensorsOk(xs + ys)
    ensures Configurables(xs + ys) == Configurables(xs) + Configurables(ys)
  {
    SensorsOkAppend(xs, ys);
    if ys == [] {
      assert xs + ys == xs;
    } else {
      var n := |ys| - 1;
      SensorsOkSlice(ys, 0, n);
      assert ys[0..n] == ys[..n];
      ConfigurablesAppend(xs, ys[..n]);
      var zs := xs + ys;
      assert zs[..|zs| - 1] == xs + ys[..n];
      assert zs[|zs| - 1] == ys[n];
      calc {
        Configurables(zs);
        Configurables(xs + ys[..n]) + RecordEntries(ys[n].0, ys[n].1);
        Configurables(xs) + Configurables(ys[..n]) + RecordEntries(ys[n].0, ys[n].1);
        Configurables(xs) + (Configurables(ys[..n]) + RecordEntries(ys[n].0, ys[n].1));
      }
    }
  }

  lemma SensorsOkAppend(xs: Sensors, ys: Sensors)
    requires SensorsOk(xs) && SensorsOk(ys)
    ensures SensorsOk(xs + ys)
  {
    forall i | 0 <= i < |xs + ys|
      ensures RecordOk((xs + ys)[i].0, (xs + ys)[i].1)
    {
      if i < |xs| {
        assert (xs + ys)[i] == xs[i];
      } else {
        assert (xs + ys)[i] == ys[i - |xs|];
      }
    }
  }

  lemma SensorsOkSlice(es: Sensors, a: nat, b: nat)
    requires SensorsOk(es) && a <= b <= |es|
    ensures SensorsOk(es[a..b])
  {
    forall i | 0 <= i < b - a
      ensures RecordOk(es[a..b][i].0, es[a..b][i].1)
    {
      assert es[a..b][i] == es[a + i];
    }
  }

  /**
   * Order: the entries of record `i` come after those of the records before
   * it and before those of the records after it.
   */
  lemma ConfigurablesSplit(es: Sensors, i: nat)
    requires SensorsOk(es) && i < |es|
    ensures SensorsOk(es[..i]) && SensorsOk(es[i + 1..])
    ensures Configurables(es) ==
              Configurables(es[..i]) + RecordEntries(es[i].0, es[i].1) + Configurables(es[i + 1..])
  {
    var pre, post := es[..i], es[i + 1..];
    SensorsOkSlice(es, 0, i);
    SensorsOkSlice(es, i + 1, |es|);
    assert es[0..i] == pre && es[i + 1..|es|] == post;
    var one := [es[i]];
    OneRecord(es[i].0, es[i].1);
    ConfigurablesAppend(pre, one);
    ConfigurablesAppend(pre + one, post);
    SplitAt(es, i);
  }

  lemma SplitAt<T>(s: seq<T>, i: nat)
    requires i < |s|
    ensures s[..i] + [s[i]] + s[i + 1..] == s
  {
    assert s[..i] + s[i..] == s;
    assert s[i..] == [s[i]] + s[i + 1..];
  }

  /** A single record filters to its own contribution. */
  lemma OneRecord(ids: string, rec: Fields)
    requires RecordOk(ids, rec)
    ensures SensorsOk([(ids, rec)])
    ensures Configurables([(ids, rec)]) == RecordEntries(ids, rec)
  {
    assert [(ids, rec)][..0] == [];
  }

  /** A record none of whose member values is a type string contributes nothing. */
  lemma DroppedRecord(xs: Sensors, ids: string, rec: Fields, ys: Sensors)
    requires SensorsOk(xs) && SensorsOk(ys) && !HasMatch(rec)
    ensures SensorsOk(xs + [(ids, rec)] + ys)
    ensures Configurables(xs + [(ids, rec)] + ys) == Configurables(xs + ys)
  {
    var one := [(ids, rec)];
    assert RecordOk(ids, rec);
    OneRecord(ids, rec);
    RecordEntriesShape(ids, rec);
    ConfigurablesAppend(xs, one);
    ConfigurablesAppend(xs + one, ys);
    ConfigurablesAppend(xs, ys);
  }

  /**
   * Every entry of the filter's result comes from a record of the input: its
   * id is `int` of that record's key and its fields are that record's.
   */
  lemma {:induction false} ConfigurablesFromInput(es: Sensors)
    requires SensorsOk(es)
    ensures forall k :: 0 <= k < |Configurables(es)| ==>
              exists i :: 0 <= i < |es| && FromRecord(Configurables(es)[k], es[i].0, es[i].1)
  {
    if es != [] {
      var n := |es| - 1;
      assert SensorsOk(es[..n]) by { assert forall i :: 0 <= i < n ==> es[..n][i] == es[i]; }
      ConfigurablesFromInput(es[..n]);
      RecordEntriesShape(es[n].0, es[n].1);
      var r := Configurables(es);
      forall k | 0 <= k < |r|
        ensures exists i :: 0 <= i < |es| && FromRecord(r[k], es[i].0, es[i].1)
      {
        var pre := Configurables(es[..n]);
        if k < |pre| {
          assert r[k] == pre[k];
          var i :| 0 <= i < n && FromRecord(pre[k], es[..n][i].0, es[..n][i].1);
          assert es[..n][i] == es[i];
          assert FromRecord(r[k], es[i].0, es[i].1);
        } else {
          assert r[k] == RecordEntries(es[n].0, es[n].1)[k - |pre|];
          assert FromRecord(r[k], es[n].0, es[n].1);
        }
      }
    } else {
      assert Configurables(es) == [];
    }
  }

  /** Once a type string has been met, later members that are not one leave the entry alone. */
  lemma {:induction false} EntryAfterOneMatch(ids: string, rec: Fields, j: nat, p: nat)
    requires j <= |rec| && RecordOk(ids, rec) && p < j
    requires KindOf(rec[p].1).Some? && MatchCount(rec, j) == 1
    ensures HasValue(rec, Str(TypeName(KindOf(rec[p].1).value)))
    ensures EntryAfter(ids, rec, j) == Some(Fresh(ids, rec, KindOf(rec[p].1).value))
  {
    assert rec[p].1 == Str(TypeName(KindOf(rec[p].1).value));
    if p == j - 1 {
      MatchCountPositive(rec, j - 1);
      EntryAfterNone(ids, rec, j - 1);
    } else {
      MatchCountPositive(rec, j - 1);
      EntryAfterOneMatch(ids, rec, j - 1, p);
    }
  }

  /**
   * The usual record: its `type` member is a type string and no other member
   * value is one. It contributes exactly one entry, with the config field of
   * its type and not the other.
   */
  lemma SingleTypeField(ids: string, rec: Fields, kind: Kind)
    requires RecordOk(ids, rec)
    requires Get(rec, "type") == Some(Str(TypeName(kind))) && MatchCount(rec, |rec|) == 1
    ensures HasValue(rec, Str(TypeName(kind)))
    ensures RecordEntries(ids, rec) == [Fresh(ids, rec, kind)]
  {
    var q :| 0 <= q < |rec| && rec[q] == ("type", Str(TypeName(kind)));
    assert KindOf(rec[q].1) == Some(kind);
    EntryAfterOneMatch(ids, rec, |rec|, q);
  }

  /**
   * One `ZHAPresence` sensor with `config.duration = 30` next to a sensor of
   * another type: exactly one entry, a presence entry with duration 30.
   */
  lemma PresenceBesideOther()
    ensures var es := [("1", [("name", Str("hall")), ("type", Str("ZHAPresence")),
                              ("config", Obj([("duration", Num(30))]))]),
                       ("2", [("name", Str("door")), ("type", Str("ZHAOther")),
                              ("config", Obj([]))])];
            SensorsOk(es) &&
            Configurables(es) == [Entry(1, Str("hall"), Presence, Some(Num(30)), None)]
  {
    var r1: Fields := [("name", Str("hall")), ("type", Str("ZHAPresence")),
                       ("config", Obj([("duration", Num(30))]))];
    var r2: Fields := [("name", Str("door")), ("type", Str("ZHAOther")), ("config", Obj([]))];
    var es := [("1", r1), ("2", r2)];
    assert !HasValue(r2, Str(PRESENCE_TYPE)) && !HasValue(r2, Str(VIBRATION_TYPE));
    assert !HasMatch(r2);
    assert HasValue(r1, Str(PRESENCE_TYPE)) by { assert r1[1].1 == Str(PRESENCE_TYPE); }
    assert !HasValue(r1, Str(VIBRATION_TYPE));
    assert RecordOk("1", r1) && RecordOk("2", r2);
    assert MatchCount(r1, 3) == 1;
    SingleTypeField("1", r1, Presence);
    RecordEntriesShape("2", r2);
    assert DecimalValue("1") == 1 by { assert "1"[..0] == []; }
    assert es[..1] == [("1", r1)] && es[..1][..0] == [];
  }
}
