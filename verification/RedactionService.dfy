/** The loops of the redaction engine, appending to one shared log as the source does. */
module RedactionService {
  import opened Wrappers
  import opened FieldRegistry
  import opened Redaction
  import opened Sequences

  /** `ctx.events` and `ctx.secretPaths`. */
  class Log {
    var events: seq<Event>
    var secretPaths: seq<string>

    constructor ()
      ensures events == [] && secretPaths == []
    {
      events, secretPaths := [], [];
    }
  }

  /** The log after appending what a walk reports. */
  ghost predicate Logged(
    log: Log, events0: seq<Event>, secrets0: seq<string>, events: seq<Event>, secrets: seq<string>)
    reads log
  {
    log.events == events0 + events && log.secretPaths == secrets0 + secrets
  }

  method WalkInto(c: Context, path: string, v: Json, log: Log) returns (out: Json)
    requires Faithful(c)
    modifies log
    ensures out == Walk(c, path, v).value
    ensures Logged(log, old(log.events), old(log.secretPaths), Walk(c, path, v).events, Walk(c, path, v).secrets)
    decreases LongestLeaf(v), v, 2
  {
    match v
    case Str(s) =>
      out := HandleStringInto(c, path, s, log);
    case Arr(items) =>
      var done := WalkItemsInto(c, path, items, log);
      out := Arr(done);
    case Obj(fields) =>
      var done := WalkFieldsInto(c, path, fields, log);
      out := Obj(done);
    case _ =>
      out := v;
  }

  method WalkItemsInto(c: Context, path: string, items: seq<Json>, log: Log) returns (done: seq<Json>)
    requires Faithful(c)
    modifies log
    ensures var o := WalkItems(c, path, 0, items);
      done == o.0 && Logged(log, old(log.events), old(log.secretPaths), o.1, o.2)
    decreases LongestOfItems(items), items, 1
  {
    ghost var all, events, secrets := WalkItems(c, path, 0, items), log.events, log.secretPaths;
    done := [];
    for i := 0 to |items|
      invariant var rest := WalkItems(c, path, i, items[i..]);
        && done + rest.0 == all.0
        && log.events + rest.1 == events + all.1
        && log.secretPaths + rest.2 == secrets + all.2
    {
      ItemAt(c, path, 0, items, i);
      LongestItem(items, i);
      ghost var o := Walk(c, ItemPath(path, i), items[i]);
      ghost var rest := WalkItems(c, path, i + 1, items[i + 1..]);
      assert items[i..][1..] == items[i + 1..];
      Regroup(done, [o.value], rest.0);
      Regroup(log.events, o.events, rest.1);
      Regroup(log.secretPaths, o.secrets, rest.2);
      var item := WalkInto(c, ItemPath(path, i), items[i], log);
      done := done + [item];
    }
    Regroup(done, [], []);
    Regroup(log.events, [], []);
    Regroup(log.secretPaths, [], []);
  }

  method WalkFieldsInto(c: Context, path: string, fields: seq<Field>, log: Log) returns (done: seq<Field>)
    requires Faithful(c)
    modifies log
    ensures var o := WalkFields(c, path, fields);
      done == o.0 && Logged(log, old(log.events), old(log.secretPaths), o.1, o.2)
    decreases LongestOfFields(fields), fields, 1
  {
    ghost var all, events, secrets := WalkFields(c, path, fields), log.events, log.secretPaths;
    done := [];
    for i := 0 to |fields|
      invariant var rest := WalkFields(c, path, fields[i..]);
        && done + rest.0 == all.0
        && log.events + rest.1 == events + all.1
        && log.secretPaths + rest.2 == secrets + all.2
    {
      FieldAt(c, path, fields, i);
      LongestField(fields, i);
      var key := fields[i].key;
      ghost var o := Walk(c, FieldPath(path, key), fields[i].value);
      ghost var rest := WalkFields(c, path, fields[i + 1..]);
      assert fields[i..][1..] == fields[i + 1..];
      Regroup(done, [Field(key, o.value)], rest.0);
      Regroup(log.events, o.events, rest.1);
      Regroup(log.secretPaths, o.secrets, rest.2);
      var item := WalkInto(c, FieldPath(path, key), fields[i].value, log);
      done := done + [Field(key, item)];
    }
    Regroup(done, [], []);
    Regroup(log.events, [], []);
    Regroup(log.secretPaths, [], []);
  }

  method HandleStringInto(c: Context, path: string, s: string, log: Log) returns (out: Json)
    requires Faithful(c)
    modifies log
    ensures out == HandleString(c, path, s).value
    ensures Logged(
      log, old(log.events), old(log.secretPaths),
      HandleString(c, path, s).events, HandleString(c, path, s).secrets)
    decreases |s|, Str(s), 1
  {
    Regroup(log.events, [], []);
    Regroup(log.secretPaths, [], []);
    var classified := ClassifyPath(c.rules, path);
    if classified.Some? && !IsAllowed(c.policy.allowList, path) {
      var rule := classified.value;
      var action := EffectiveAction(rule, c.policy);
      if action != Keep {
        log.events := log.events + [Event(path, action, rule.sensitivity, Some(c.fingerprint(rule)))];
      }
      return Str(Treated(c, action, s));
    }
    out := HandleUnclassifiedInto(c, path, s, log);
  }

  /** Secret detection and nested JSON, for strings no rule governs. */
  method HandleUnclassifiedInto(c: Context, path: string, s: string, log: Log) returns (out: Json)
    requires Faithful(c) && RuleAt(c, path).None?
    modifies log
    ensures out == HandleString(c, path, s).value
    ensures Logged(
      log, old(log.events), old(log.secretPaths),
      HandleString(c, path, s).events, HandleString(c, path, s).secrets)
    decreases |s|, Str(s), 0
  {
    ghost var events0, secrets0 := log.events, log.secretPaths;
    ghost var secrets: seq<string> := [];
    Regroup(events0, [], []);
    Regroup(secrets0, [], []);
    if c.hasSecret(s) && !SecretAllowed(c, path) {
      secrets := [if path == "" then "$" else path];
      log.secretPaths := log.secretPaths + [if path == "" then "$" else path];
      if c.policy.blockOnSecret {
        return Str(s);
      }
    }
    assert log.secretPaths == secrets0 + secrets;
    var parsed := TryParseJson(c, s);
    if parsed.None? {
      return Str(s);
    }
    assert ParsesSmaller(c, s);
    ghost var walk := Walk(c, FieldPath(path, "~"), parsed.value);
    Regroup(secrets0, secrets, walk.secrets);
    var walked := WalkInto(c, FieldPath(path, "~"), parsed.value, log);
    var reserialized := c.stringify(walked);
    if reserialized == s {
      return Str(s);
    }
    Regroup(events0, walk.events, [Event(path, Redact, High, None)]);
    log.events := log.events + [Event(path, Redact, High, None)];
    out := Str(reserialized);
  }

  method RedactPayload(c: Context, redactionEnabled: bool, input: Json) returns (r: Outcome)
    requires Faithful(c)
    ensures r == RedactValue(c, redactionEnabled, input)
    ensures !redactionEnabled || !c.policy.enabled ==> r == Done(input, false, false, [])
  {
    if !redactionEnabled || !c.policy.enabled {
      return Done(input, false, false, []);
    }
    var log := new Log();
    var output := WalkInto(c, "", input, log);
    var secretDetected := |log.secretPaths| > 0;
    if secretDetected && c.policy.blockOnSecret {
      return Blocked(log.secretPaths);
    }
    r := Done(output, |log.events| > 0, secretDetected, log.events);
  }
}
