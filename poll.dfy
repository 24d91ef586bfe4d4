/** The client's check that a value received from the server is a poll. */
module PollClient {
  import opened Json
  import Routes

  /** A poll as the client holds it. RI: |options| >= 2. */
  datatype Poll = Poll(name: string, endTime: real, options: seq<Value>)

  /** isRecord, taken to hold exactly of objects. */
  predicate IsRecord(v: Value) {
    v.Obj?
  }

  /** A number that is not NaN and not negative. */
  predicate IsEndTime(v: Value) {
    v.Number? && v.n.Finite? && v.n.val >= 0.0
  }

  /** `x < 0` on a JavaScript number: false for NaN. */
  predicate Negative(x: Num) {
    x.Finite? && x.val < 0.0
  }

  /** parsePoll: the poll described by val, or None when val is not one. */
  function ParsePoll(val: Value): (r: Option<Poll>)
    ensures !IsRecord(val) ==> r == None
    ensures IsRecord(val) && !Field(val.fields, "name").Str? ==> r == None
    ensures IsRecord(val) && !IsEndTime(Field(val.fields, "endTime")) ==> r == None
    ensures IsRecord(val) ==>
      var options := Field(val.fields, "options");
      !(options.Arr? && |options.elems| >= 2) ==> r == None
    ensures r.Some? <==>
      IsRecord(val) &&
      var name, endTime, options := Field(val.fields, "name"), Field(val.fields, "endTime"), Field(val.fields, "options");
      name.Str? && IsEndTime(endTime) && options.Arr? && |options.elems| >= 2
    ensures r.Some? ==>
      var name, endTime, options := Field(val.fields, "name"), Field(val.fields, "endTime"), Field(val.fields, "options");
      r.value == Poll(name.s, endTime.n.val, options.elems) &&
      r.value.endTime >= 0.0 && |r.value.options| >= 2
  {
    if !IsRecord(val) then None
    else
      var name := Field(val.fields, "name");
      if !name.Str? then None
      else
        var endTime := Field(val.fields, "endTime");
        if !endTime.Number? || Negative(endTime.n) || endTime.n.NaN? then None
        else
          var options := Field(val.fields, "options");
          if !options.Arr? || |options.elems| < 2 then None
          else Some(Poll(name.s, endTime.n.val, options.elems))
  }

  /** Properties other than name, endTime and options do not matter. */
  lemma ParsePollIgnoresOtherFields(fields: map<string, Value>, key: string, v: Value)
    requires key !in {"name", "endTime", "options"}
    ensures ParsePoll(Obj(fields[key := v])) == ParsePoll(Obj(fields))
  {
    assert Field(fields[key := v], "name") == Field(fields, "name");
    assert Field(fields[key := v], "endTime") == Field(fields, "endTime");
    assert Field(fields[key := v], "options") == Field(fields, "options");
  }

  /** Every poll the server stores, once sent as JSON, parses back to the
      same name, end time and options. */
  lemma ServerPollParses(p: Routes.Poll)
    requires |p.options| >= 2 && p.endTime >= 0
    ensures ParsePoll(Routes.PollJson(p)) == Some(Poll(p.name, p.endTime as real, p.options))
  {
  }
}
