/**
 * The lookup behind `modify_config`: scan the cached configurable entries
 * for the entered id, send one PUT per matching entry with the field its
 * type calls for, and stop at the first PUT the gateway accepts.
 */
module ModifyLookup {
  import opened EntityFilter

  /** What the operator typed at the value prompt, and whether the PUT came back ok. */
  datatype Reply = Reply(value: string, ok: bool)

  /** `PUT /api/<key>/sensors/<id>/config` with body `{field: value}`. */
  datatype Request = Put(id: int, field: string, value: string)

  /** "Success!" or "ID <id> is not in the list of configurable IDs". */
  datatype Message = Success | NotInList(id: int)

  /** The requests issued, in order, and the message printed at the end. */
  datatype Outcome = Outcome(requests: seq<Request>, message: Message)

  /** The entries with the entered id, in list order. */
  function Matching(entries: seq<Entry>, id: int): seq<Entry> {
    if entries == [] then []
    else if entries[0].id == id then [entries[0]] + Matching(entries[1..], id)
    else Matching(entries[1..], id)
  }

  /** `o` with `rs` issued before its own requests. */
  function After(rs: seq<Request>, o: Outcome): Outcome {
    Outcome(rs + o.requests, o.message)
  }

  /**
   * The scan: every matching entry uses up the next reply; an accepted PUT
   * ends the scan, a refused one lets it go on.
   */
  function Modify(entries: seq<Entry>, id: int, replies: seq<Reply>): Outcome
    requires |replies| >= |Matching(entries, id)|
  {
    if entries == [] then Outcome([], NotInList(id))
    else if entries[0].id == id then
      var put := Put(id, FieldName(entries[0].kind), replies[0].value);
      if replies[0].ok then Outcome([put], Success)
      else After([put], Modify(entries[1..], id, replies[1..]))
    else Modify(entries[1..], id, replies)
  }

  /** The position of the first accepted reply among the first `n`, or `n` if none was. */
  function FirstOk(replies: seq<Reply>, n: nat): (k: nat)
    requires n <= |replies|
    ensures k <= n
    ensures k < n ==> replies[k].ok
    ensures forall j :: 0 <= j < k ==> !replies[j].ok
  {
    if n == 0 then 0
    else
      var k := FirstOk(replies, n - 1);
      if k < n - 1 then k else if replies[n - 1].ok then n - 1 else n
  }

  /**
   * The scan as a whole: one PUT per matching entry, to the entered id, with
   * `duration` for a presence entry and `sensitivity` for a vibration entry;
   * the PUTs stop after the first accepted one, which prints "Success!";
   * when every PUT is refused, or none matches, the not-in-list message is
   * printed after all of them.
   */
  lemma {:induction false} ModifyCharacterised(entries: seq<Entry>, id: int, replies: seq<Reply>)
    requires |replies| >= |Matching(entries, id)|
    ensures var ms := Matching(entries, id);
            var k := FirstOk(replies, |ms|);
            var o := Modify(entries, id, replies);
            && |o.requests| == (if k < |ms| then k + 1 else |ms|)
            && (forall j :: 0 <= j < |o.requests| ==>
                  o.requests[j] == Put(id, FieldName(ms[j].kind), replies[j].value))
            && o.message == (if k < |ms| then Success else NotInList(id))
  {
    if entries != [] {
      var ms := Matching(entries, id);
      if entries[0].id == id {
        var rest := Matching(entries[1..], id);
        assert ms == [entries[0]] + rest;
        ModifyCharacterised(entries[1..], id, replies[1..]);
        FirstOkShift(replies, |ms|);
        var o := Modify(entries, id, replies);
        var put := Put(id, FieldName(entries[0].kind), replies[0].value);
        if !replies[0].ok {
          var o' := Modify(entries[1..], id, replies[1..]);
          assert o.requests == [put] + o'.requests;
          forall j | 0 <= j < |o.requests|
            ensures o.requests[j] == Put(id, FieldName(ms[j].kind), replies[j].value)
          {
            if j > 0 {
              assert o.requests[j] == o'.requests[j - 1];
              assert ms[j] == rest[j - 1] && replies[j] == replies[1..][j - 1];
            }
          }
        }
      } else {
        ModifyCharacterised(entries[1..], id, replies);
      }
    }
  }

  /** Dropping a refused first reply moves the first accepted one down by one. */
  lemma {:induction false} FirstOkShift(replies: seq<Reply>, n: nat)
    requires 0 < n <= |replies|
    ensures FirstOk(replies, n) ==
              if replies[0].ok then 0 else 1 + FirstOk(replies[1..], n - 1)
  {
    if n > 1 {
      FirstOkShift(replies, n - 1);
      assert replies[1..][n - 2] == replies[n - 1];
    }
  }

  /**
   * An id that no cached entry has: no PUT is issued and the not-in-list
   * message is printed, whatever the replies would have been.
   */
  lemma {:induction false} NoMatchNoRequest(entries: seq<Entry>, id: int, replies: seq<Reply>)
    requires forall k :: 0 <= k < |entries| ==> entries[k].id != id
    ensures Matching(entries, id) == []
    ensures Modify(entries, id, replies) == Outcome([], NotInList(id))
  {
    if entries != [] {
      assert forall k :: 0 <= k < |entries| - 1 ==> entries[1..][k] == entries[k + 1];
      NoMatchNoRequest(entries[1..], id, replies);
    }
  }
}
