/**
 What the redaction engine does to the string at a position of a payload, told by the position's segments, the
 rules' and allow list's patterns and the policy alone; and which secrets block a payload.
 */
module RedactionPaths {
  import opened Wrappers
  import opened FieldRegistry
  import opened Redaction
  import opened Sequences
  import opened Text

  // ---------------------------------------------------------------------------------------------
  // Positions
  // ---------------------------------------------------------------------------------------------

  /** One step into a value: to the `i`-th field, which has `key`, to the `i`-th item, or into a JSON text. */
  datatype Step = Member(i: nat, key: string) | Item(i: nat) | Inside

  function At(c: Context, v: Json, steps: seq<Step>): Option<Json>
    decreases |steps|
  {
    if steps == [] then
      Some(v)
    else
      match steps[0]
      case Member(i, key) =>
        if v.Obj? && i < |v.fields| && v.fields[i].key == key then At(c, v.fields[i].value, steps[1..]) else None
      case Item(i) =>
        if v.Arr? && i < |v.items| then At(c, v.items[i], steps[1..]) else None
      case Inside =>
        if v.Str? && IsText(c, v.s) then At(c, c.parse(v.s).value, steps[1..]) else None
  }

  /** The text starts like an object or array and parses. */
  predicate IsText(c: Context, s: string) {
    |s| >= 2 && s[0] in {'{', '['} && c.parse(s).Some?
  }

  /**
   The segments of a position below `segments`: a key or a `~` adds one, an index is written onto the last one, and
   stands alone at the root.
   */
  function SegmentsAlong(segments: seq<string>, steps: seq<Step>): seq<string>
    decreases |steps|
  {
    if steps == [] then
      segments
    else
      var next := match steps[0]
        case Member(_, key) => segments + [key]
        case Item(i) => WithIndex(segments, "[" + IntText(i) + "]")
        case Inside => segments + ["~"];
      SegmentsAlong(next, steps[1..])
  }

  function WithIndex(segments: seq<string>, index: string): seq<string> {
    if segments == [] then [index]
    else segments[..|segments| - 1] + [segments[|segments| - 1] + index]
  }

  /** The same as text, whatever the keys. */
  function TextAlong(path: string, steps: seq<Step>): string
    decreases |steps|
  {
    if steps == [] then
      path
    else
      var next := match steps[0]
        case Member(_, key) => if path == "" then key else path + "." + key
        case Item(i) => path + "[" + IntText(i) + "]"
        case Inside => if path == "" then "~" else path + ".~";
      TextAlong(next, steps[1..])
  }

  /** Keys are not empty and hold no dot. */
  predicate PlainKeys(steps: seq<Step>) {
    forall s | s in steps :: s.Member? ==> s.key != "" && '.' !in s.key
  }

  lemma IndexIsPlain(i: nat)
    ensures '.' !in "[" + IntText(i) + "]"
  {
  }

  lemma {:induction false} JoinOfIndexed(segments: seq<string>, index: string)
    requires segments != []
    ensures Join(WithIndex(segments, index), ".") == Join(segments, ".") + index
  {
    var n := |segments| - 1;
    var front, last := segments[..n], segments[n];
    assert segments == front + [last];
    if front != [] {
      JoinAppend(front, ".", last);
      JoinAppend(front, ".", last + index);
    }
  }

  lemma IndexedIsPlain(segments: seq<string>, i: nat)
    requires Plain(segments)
    ensures Plain(WithIndex(segments, "[" + IntText(i) + "]"))
  {
    IndexIsPlain(i);
    if segments != [] {
      assert segments[|segments| - 1] in segments;
    }
  }

  lemma PlainNext(segments: seq<string>, step: Step)
    requires Plain(segments) && (step.Member? ==> step.key != "" && '.' !in step.key)
    ensures var next := SegmentsAlong(segments, [step]);
      Plain(next) && next != [] && Join(next, ".") == TextAlong(Join(segments, "."), [step])
  {
    hide Join;
    assert [step][1..] == [];
    assert Join([], ".") == "" && forall s :: Join([s], ".") == s by {
      JoinOfOne();
    }
    var last := if step.Member? then step.key else "~";
    if step.Item? {
      IndexedIsPlain(segments, step.i);
      if segments != [] {
        JoinOfIndexed(segments, "[" + IntText(step.i) + "]");
      }
    } else if segments != [] {
      JoinAppend(segments, ".", last);
      JoinIsNotEmpty(segments);
      assert ".~" == "." + "~";
    } else {
      assert segments + [last] == [last];
    }
  }

  lemma JoinOfOne()
    ensures Join([], ".") == "" && forall s :: Join([s], ".") == s
  {
  }

  lemma JoinIsNotEmpty(segments: seq<string>)
    requires Plain(segments) && segments != []
    ensures Join(segments, ".") != ""
  {
    assert segments[0] in segments;
  }

  /** For plain keys the text of a position is its segments joined with dots. */
  lemma {:induction false} TextIsJoined(segments: seq<string>, steps: seq<Step>)
    requires Plain(segments) && PlainKeys(steps)
    ensures Plain(SegmentsAlong(segments, steps))
    ensures Join(SegmentsAlong(segments, steps), ".") == TextAlong(Join(segments, "."), steps)
    decreases |steps|
  {
    if steps != [] {
      assert [steps[0]][1..] == [];
      PlainNext(segments, steps[0]);
      TextIsJoined(SegmentsAlong(segments, [steps[0]]), steps[1..]);
    }
  }

  /** The rule patterns are compared with these segments. */
  lemma PlainKeysAreSegments(steps: seq<Step>)
    requires PlainKeys(steps)
    ensures Segments(TextAlong("", steps)) == SegmentsAlong([], steps)
  {
    TextIsJoined([], steps);
    SegmentsOfJoin(SegmentsAlong([], steps));
  }

  function KeysOnly(steps: seq<Step>): (keys: seq<string>)
    requires forall s | s in steps :: s.Member?
    ensures |keys| == |steps|
  {
    seq(|steps|, i requires 0 <= i < |steps| => steps[i].key)
  }

  /** A string under plain keys alone has exactly these as its segments. */
  lemma {:induction false} KeysAreSegments(segments: seq<string>, steps: seq<Step>)
    requires forall s | s in steps :: s.Member?
    ensures SegmentsAlong(segments, steps) == segments + KeysOnly(steps)
    decreases |steps|
  {
    if steps != [] {
      assert forall s | s in steps[1..] :: s in steps;
      KeysAreSegments(segments + [steps[0].key], steps[1..]);
      assert KeysOnly(steps) == [steps[0].key] + KeysOnly(steps[1..]);
    }
  }

  // ---------------------------------------------------------------------------------------------
  // The rule of a position
  // ---------------------------------------------------------------------------------------------

  ghost predicate Covers(pattern: string, segments: seq<string>) {
    BySegments(Segments(pattern), segments)
  }

  /** Some entry of the allow list covers the segments. */
  ghost predicate AllowedAt(c: Context, segments: seq<string>) {
    exists a :: a in c.policy.allowList && Covers(a, segments)
  }

  /** Rule `i` covers the segments; no covering rule has a longer pattern, and none before it one as long. */
  ghost predicate Governs(c: Context, segments: seq<string>, i: nat) {
    && i < |c.rules| && Covers(c.rules[i].match_, segments)
    && forall j | 0 <= j < |c.rules| && Covers(c.rules[j].match_, segments) ::
      |c.rules[j].match_| < |c.rules[i].match_| || (|c.rules[j].match_| == |c.rules[i].match_| && i <= j)
  }

  /** No rule treats the string there. */
  ghost predicate Ungoverned(c: Context, segments: seq<string>) {
    AllowedAt(c, segments) || forall i | 0 <= i < |c.rules| :: !Covers(c.rules[i].match_, segments)
  }

  /** A pseudonymised level comes first, then the rule's own action, then the level's, then redaction. */
  predicate Applies(policy: Policy, rule: FieldRule, action: Action) {
    if rule.sensitivity in policy.pseudonymizeLevels then action == Pseudonymize
    else if rule.action.Some? then action == rule.action.value
    else if rule.sensitivity in policy.levelActions then action == policy.levelActions[rule.sensitivity]
    else action == Redact
  }

  /** What becomes of a string under an action. */
  predicate BecomesUnder(c: Context, action: Action, s: string, t: string) {
    match action
    case Keep => t == s
    case Redact => t == "[REDACTED]"
    case Pseudonymize => if "psn:" <= s then t == s else t == "psn:" + c.digest(s, c.namespace)
    case Obfuscate => if |s| > 4 then t == s[..2] + "****" + s[|s| - 4..] else t == "[REDACTED]"
  }

  lemma CoversIff(pattern: string, path: string)
    ensures PathMatches(pattern, path) <==> Covers(pattern, Segments(path))
  {
    MatchesBySegments(Segments(pattern), Segments(path));
  }

  lemma RuleAtIs(c: Context, path: string)
    ensures RuleAt(c, path).None? <==> Ungoverned(c, Segments(path))
    ensures !Ungoverned(c, Segments(path)) ==> exists i: nat :: Governs(c, Segments(path), i)
    ensures RuleAt(c, path).Some? ==>
      forall i: nat | Governs(c, Segments(path), i) :: c.rules[i] == RuleAt(c, path).value
  {
    hide PathMatches, Covers, ClassifyAmong;
    forall a
      ensures PathMatches(a, path) <==> Covers(a, Segments(path))
    {
      CoversIff(a, path);
    }
    var best := ClassifyAmong(c.rules, |c.rules|, path);
    ClassifyIsMostSpecific(c.rules, |c.rules|, path);
    if best.Some? {
      var i :| 0 <= i < |c.rules| && MostSpecific(c.rules, |c.rules|, path, i) && c.rules[i] == best.value;
      assert Governs(c, Segments(path), i);
      forall j: nat | Governs(c, Segments(path), j)
        ensures i == j
      {
      }
    }
  }

  lemma ActionIs(c: Context, rule: FieldRule, s: string)
    ensures Applies(c.policy, rule, EffectiveAction(rule, c.policy))
    ensures BecomesUnder(c, EffectiveAction(rule, c.policy), s, Treated(c, EffectiveAction(rule, c.policy), s))
  {
  }

  // ---------------------------------------------------------------------------------------------
  // The walk at a position
  // ---------------------------------------------------------------------------------------------

  /** No text that is opened on the way is treated by a rule; such a text is handled as a whole. */
  ghost predicate Opens(c: Context, path: string, steps: seq<Step>)
    decreases |steps|
  {
    steps != [] ==>
      && (steps[0].Inside? ==> Ungoverned(c, Segments(path)))
      && Opens(c, TextAlong(path, [steps[0]]), steps[1..])
  }

  lemma TextNext(path: string, steps: seq<Step>)
    requires steps != []
    ensures TextAlong(path, steps) == TextAlong(TextAlong(path, [steps[0]]), steps[1..])
    ensures TextAlong(path, [steps[0]]) == WalkedPath(path, steps[0])
  {
    assert [steps[0]][1..] == [];
    assert path + "." + "~" == path + ".~";
  }

  /** The path that the walk passes on. */
  function WalkedPath(path: string, step: Step): string {
    match step
    case Member(_, key) => FieldPath(path, key)
    case Item(i) => ItemPath(path, i)
    case Inside => FieldPath(path, "~")
  }

  lemma {:induction false} RenumberedSelf(v: Json)
    ensures Renumbered(v, v)
  {
    match v
    case Arr(items) =>
      forall i | 0 <= i < |items|
        ensures Renumbered(items[i], items[i])
      {
        RenumberedSelf(items[i]);
      }
    case Obj(fields) =>
      forall i | 0 <= i < |fields|
        ensures Renumbered(fields[i].value, fields[i].value)
      {
        RenumberedSelf(fields[i].value);
      }
    case _ =>
  }

  lemma {:induction false} RenumberedTwice(u: Json, v: Json, w: Json)
    requires Renumbered(u, v) && Renumbered(v, w)
    ensures Renumbered(u, w)
  {
    match u
    case Arr(items) =>
      forall i | 0 <= i < |items|
        ensures Renumbered(items[i], w.items[i])
      {
        RenumberedTwice(items[i], v.items[i], w.items[i]);
      }
    case Obj(fields) =>
      forall i | 0 <= i < |fields|
        ensures Renumbered(fields[i].value, w.fields[i].value)
      {
        RenumberedTwice(fields[i].value, v.fields[i].value, w.fields[i].value);
      }
    case _ =>
  }

  /** The same positions lead to the same values, up to their numbers. */
  lemma {:induction false} RenumberedAt(c: Context, v: Json, w: Json, steps: seq<Step>)
    requires Renumbered(v, w) && At(c, v, steps).Some?
    ensures At(c, w, steps).Some? && Renumbered(At(c, v, steps).value, At(c, w, steps).value)
    decreases |steps|
  {
    if steps != [] {
      match steps[0]
      case Member(i, _) => RenumberedAt(c, v.fields[i].value, w.fields[i].value, steps[1..]);
      case Item(i) => RenumberedAt(c, v.items[i], w.items[i], steps[1..]);
      case Inside => RenumberedSelf(At(c, w, steps).value);
    }
  }

  lemma {:induction false} ItemReports(c: Context, path: string, index: nat, v: seq<Json>, i: nat)
    requires Faithful(c) && i < |v|
    ensures var o, whole := Walk(c, ItemPath(path, index + i), v[i]), WalkItems(c, path, index, v);
      && (forall e | e in o.events :: e in whole.1) && (forall p | p in o.secrets :: p in whole.2)
    decreases |v|
  {
    hide Walk, ItemPath;
    if i > 0 {
      assert v[1..][i - 1] == v[i];
      ItemReports(c, path, index + 1, v[1..], i - 1);
      var at := index + i;
      assert index + 1 + (i - 1) == at;
    }
  }

  lemma {:induction false} FieldReports(c: Context, path: string, v: seq<Field>, i: nat)
    requires Faithful(c) && i < |v|
    ensures var o, whole := Walk(c, FieldPath(path, v[i].key), v[i].value), WalkFields(c, path, v);
      && (forall e | e in o.events :: e in whole.1) && (forall p | p in o.secrets :: p in whole.2)
    decreases |v|
  {
    hide Walk, FieldPath;
    if i > 0 {
      assert v[1..][i - 1] == v[i];
      FieldReports(c, path, v[1..], i - 1);
    }
  }

  /** A text that no rule treats comes out as a text with the walked content, up to its numbers. */
  lemma TextContent(c: Context, path: string, s: string)
    requires Faithful(c) && IsText(c, s) && RuleAt(c, path).None? && Unblocked(c, path, Str(s))
    ensures var p, out := c.parse(s).value, Walk(c, path, Str(s));
      var inner := Walk(c, FieldPath(path, "~"), p);
      && Unblocked(c, FieldPath(path, "~"), p)
      && out.value.Str? && IsText(c, out.value.s) && Renumbered(inner.value, c.parse(out.value.s).value)
      && (forall e | e in inner.events :: e in out.events)
  {
    var inner, p := FieldPath(path, "~"), c.parse(s).value;
    assert TryParseJson(c, s) == c.parse(s);
    assert ParsesSmaller(c, s);
    HandledText(c, path, s);
    WalkKeepsDefined(c, inner, p);
    assert RoundTrips(c, Walk(c, inner, p).value);
    assert Walk(c, path, Str(s)) == HandleString(c, path, s);
  }

  /** The walk of a value holds, at each position, the walk of what stands there, up to its numbers. */
  lemma {:induction false} WalkAt(c: Context, path: string, v: Json, steps: seq<Step>)
    requires Faithful(c) && Unblocked(c, path, v) && At(c, v, steps).Some? && Opens(c, path, steps)
    ensures var out, there := Walk(c, path, v), Walk(c, TextAlong(path, steps), At(c, v, steps).value);
      && At(c, out.value, steps).Some? && Renumbered(there.value, At(c, out.value, steps).value)
      && (forall e | e in there.events :: e in out.events)
    decreases |steps|
  {
    hide HandleString, WalkItems, WalkFields, RuleAt, Ungoverned, Segments, Renumbered, FieldPath, ItemPath, Unblocked;
    if steps == [] {
      RenumberedSelf(Walk(c, path, v).value);
    } else {
      TextNext(path, steps);
      match steps[0]
      case Member(i, key) =>
        FieldAt(c, path, v.fields, i);
        FieldUnblocked(c, path, v.fields, i);
        FieldReports(c, path, v.fields, i);
        WalkAt(c, FieldPath(path, key), v.fields[i].value, steps[1..]);
      case Item(i) =>
        ItemAt(c, path, 0, v.items, i);
        ItemUnblocked(c, path, v.items, i);
        ItemReports(c, path, 0, v.items, i);
        WalkAt(c, ItemPath(path, i), v.items[i], steps[1..]);
      case Inside =>
        var inner, p := FieldPath(path, "~"), c.parse(v.s).value;
        RuleAtIs(c, path);
        TextContent(c, path, v.s);
        WalkAt(c, inner, p, steps[1..]);
        RenumberedAt(c, Walk(c, inner, p).value, c.parse(Walk(c, path, v).value.s).value, steps[1..]);
        RenumberedTwice(
          Walk(c, TextAlong(path, steps), At(c, v, steps).value).value,
          At(c, Walk(c, inner, p).value, steps[1..]).value,
          At(c, Walk(c, path, v).value, steps).value);
    }
  }

  // ---------------------------------------------------------------------------------------------
  // What redaction does at a position
  // ---------------------------------------------------------------------------------------------

  /** The string at `steps` stands in the payload, and redaction gives an output. */
  ghost predicate StandsAt(c: Context, v: Json, steps: seq<Step>, s: string)
    requires Faithful(c)
  {
    && c.policy.enabled && RedactValue(c, true, v).Done?
    && At(c, v, steps) == Some(Str(s)) && Opens(c, "", steps)
  }

  lemma OutputAt(c: Context, v: Json, steps: seq<Step>)
    requires Faithful(c) && c.policy.enabled && RedactValue(c, true, v).Done?
    requires At(c, v, steps).Some? && Opens(c, "", steps)
    ensures var r, there := RedactValue(c, true, v), Walk(c, TextAlong("", steps), At(c, v, steps).value);
      && At(c, r.output, steps).Some? && Renumbered(there.value, At(c, r.output, steps).value)
      && (forall e | e in there.events :: e in r.events) && r.modified == (r.events != [])
  {
    WalkAt(c, "", v, steps);
  }

  /**
   A string at a position that no allow-list entry covers is treated by the most specific rule that covers the
   position's segments, under the action that the policy gives; unless it is kept, the treatment is reported.
   */
  lemma GovernedIsTreated(c: Context, v: Json, steps: seq<Step>, s: string, i: nat, action: Action)
    requires Faithful(c) && StandsAt(c, v, steps, s)
    requires var segments := Segments(TextAlong("", steps)); Governs(c, segments, i) && !AllowedAt(c, segments)
    requires Applies(c.policy, c.rules[i], action)
    ensures var r := RedactValue(c, true, v);
      && (exists t :: At(c, r.output, steps) == Some(Str(t)) && BecomesUnder(c, action, s, t))
      && (action != Keep ==>
            && r.modified
            && Event(TextAlong("", steps), action, c.rules[i].sensitivity, Some(c.fingerprint(c.rules[i]))) in r.events)
  {
    hide RedactValue, Governs, AllowedAt, BecomesUnder, Applies, Treated, EffectiveAction, RuleAt;
    var path := TextAlong("", steps);
    OutputAt(c, v, steps);
    GovernedHas(c, path, i);
    var rule := c.rules[i];
    ActionIs(c, rule, s);
    OneActionApplies(c.policy, rule, action, EffectiveAction(rule, c.policy));
    HandledByRule(c, path, s, rule);
    assert At(c, RedactValue(c, true, v).output, steps) == Some(Str(Treated(c, action, s)));
  }

  lemma HandledByRule(c: Context, path: string, s: string, rule: FieldRule)
    requires Faithful(c) && RuleAt(c, path) == Some(rule)
    ensures var o, action := Walk(c, path, Str(s)), EffectiveAction(rule, c.policy);
      && o.value == Str(Treated(c, action, s))
      && (action != Keep ==> Event(path, action, rule.sensitivity, Some(c.fingerprint(rule))) in o.events)
  {
    assert Walk(c, path, Str(s)) == HandleString(c, path, s);
  }

  lemma GovernedHas(c: Context, path: string, i: nat)
    requires Governs(c, Segments(path), i) && !AllowedAt(c, Segments(path))
    ensures i < |c.rules| && RuleAt(c, path) == Some(c.rules[i])
  {
    RuleAtIs(c, path);
  }

  lemma OneActionApplies(policy: Policy, rule: FieldRule, a: Action, b: Action)
    requires Applies(policy, rule, a) && Applies(policy, rule, b)
    ensures a == b
  {
  }

  /** Where the allow list covers the segments, or no rule does, a string is kept, a JSON text as a JSON text. */
  lemma UngovernedIsKept(c: Context, v: Json, steps: seq<Step>, s: string)
    requires Faithful(c) && StandsAt(c, v, steps, s) && Ungoverned(c, Segments(TextAlong("", steps)))
    ensures var out := At(c, RedactValue(c, true, v).output, steps);
      && out.Some? && out.value.Str?
      && (!IsText(c, s) ==> out.value.s == s) && (IsText(c, s) ==> IsText(c, out.value.s))
  {
    var path := TextAlong("", steps);
    OutputAt(c, v, steps);
    RuleAtIs(c, path);
    assert Walk(c, path, Str(s)) == HandleString(c, path, s);
    if IsText(c, s) {
      TextKept(c, path, s);
    }
  }

  lemma TextKept(c: Context, path: string, s: string)
    requires Faithful(c) && IsText(c, s) && RuleAt(c, path).None?
    ensures HandleString(c, path, s).value.Str? && IsText(c, HandleString(c, path, s).value.s)
  {
    assert TryParseJson(c, s) == c.parse(s);
    assert ParsesSmaller(c, s);
    WalkKeepsDefined(c, FieldPath(path, "~"), c.parse(s).value);
    assert RoundTrips(c, Walk(c, FieldPath(path, "~"), c.parse(s).value).value);
  }

  /** Nothing but strings changes: positions, keys, lengths and other leaves stay, numbers in texts up to rounding. */
  lemma ShapeIsKept(c: Context, v: Json, steps: seq<Step>)
    requires Faithful(c) && c.policy.enabled && RedactValue(c, true, v).Done?
    requires At(c, v, steps).Some? && Opens(c, "", steps)
    ensures var x, out := At(c, v, steps).value, At(c, RedactValue(c, true, v).output, steps);
      && out.Some? && (x.Str? <==> out.value.Str?)
      && (x.Arr? ==> out.value.Arr? && |out.value.items| == |x.items|)
      && (x.Obj? ==> out.value.Obj? && KeysOf(out.value.fields) == KeysOf(x.fields))
      && (x.Null? || x.Undefined? || x.Bool? ==> out.value == x)
      && (x.Num? ==> out.value.Num? || out.value.Null?)
  {
    hide RedactValue;
    var x, path := At(c, v, steps).value, TextAlong("", steps);
    OutputAt(c, v, steps);
    if x.Obj? {
      WalkKeepsKeys(c, path, x.fields);
      SameKeys(Walk(c, path, x).value, At(c, RedactValue(c, true, v).output, steps).value);
    }
  }

  lemma SameKeys(v: Json, w: Json)
    requires v.Obj? && Renumbered(v, w)
    ensures w.Obj? && KeysOf(v.fields) == KeysOf(w.fields)
  {
  }

  // ---------------------------------------------------------------------------------------------
  // Secrets
  // ---------------------------------------------------------------------------------------------

  /** The allow list names the path itself, without a leading `$.`; the root is never excused. */
  predicate Excused(c: Context, path: string) {
    path !in {"", "$"} && (if |path| >= 2 && path[..2] == "$." then path[2..] else path) in c.policy.allowList
  }

  /** Below `path`, at `steps`, stands a secret that no rule treats and the allow list does not excuse. */
  ghost predicate SecretBelow(c: Context, path: string, v: Json, steps: seq<Step>) {
    var there := TextAlong(path, steps);
    && At(c, v, steps).Some? && At(c, v, steps).value.Str? && Opens(c, path, steps)
    && Ungoverned(c, Segments(there)) && c.hasSecret(At(c, v, steps).value.s) && !Excused(c, there)
  }

  lemma SecretSeenIff(c: Context, path: string, s: string)
    ensures SecretSeen(c, path, s) <==> c.hasSecret(s) && !Excused(c, path)
  {
    assert "$." <= path <==> |path| >= 2 && path[..2] == "$.";
  }

  lemma BelowNext(c: Context, path: string, v: Json, step: Step, steps: seq<Step>)
    requires At(c, v, [step]).Some? && (step.Inside? ==> Ungoverned(c, Segments(path)))
    ensures SecretBelow(c, path, v, [step] + steps)
      <==> SecretBelow(c, WalkedPath(path, step), At(c, v, [step]).value, steps)
  {
    var whole := [step] + steps;
    assert whole[1..] == steps && whole[0] == step && [step][1..] == [];
    TextNext(path, whole);
  }

  /** Every path that a walk reports leads to such a secret. */
  lemma {:induction false} ReportedIsSecret(c: Context, path: string, v: Json, p: string)
    returns (steps: seq<Step>)
    requires Faithful(c) && p in Walk(c, path, v).secrets
    ensures SecretBelow(c, path, v, steps)
    ensures var there := TextAlong(path, steps); p == if there == "" then "$" else there
    decreases LongestLeaf(v), v, 1
  {
    hide Ungoverned, Excused, SecretSeen, RuleAt, SecretBelow, HandleString, WalkItems, WalkFields;
    match v
    case Str(s) =>
      steps := ReportedInText(c, path, s, p);
    case Arr(items) =>
      var i := ReportedItem(c, path, 0, items, p);
      LongestItem(items, i);
      var rest := ReportedIsSecret(c, ItemPath(path, i), items[i], p);
      steps := [Item(i)] + rest;
      assert At(c, v, [Item(i)]) == Some(items[i]);
      BelowNext(c, path, v, Item(i), rest);
      TextNext(path, steps);
    case Obj(fields) =>
      var i := ReportedField(c, path, fields, p);
      LongestField(fields, i);
      var step := Member(i, fields[i].key);
      var rest := ReportedIsSecret(c, FieldPath(path, fields[i].key), fields[i].value, p);
      steps := [step] + rest;
      assert At(c, v, [step]) == Some(fields[i].value);
      BelowNext(c, path, v, step, rest);
      TextNext(path, steps);
    case _ => steps := [];
  }

  lemma {:induction false} ReportedInText(c: Context, path: string, s: string, p: string)
    returns (steps: seq<Step>)
    requires Faithful(c) && p in HandleString(c, path, s).secrets
    ensures SecretBelow(c, path, Str(s), steps)
    ensures var there := TextAlong(path, steps); p == if there == "" then "$" else there
    decreases |s|, Str(s), 0
  {
    hide Ungoverned, Excused, SecretSeen, RuleAt;
    RuleAtIs(c, path);
    SecretSeenIff(c, path, s);
    if SecretSeen(c, path, s) && p == (if path == "" then "$" else path) {
      steps := [];
    } else {
      assert TryParseJson(c, s).Some? && IsText(c, s);
      assert ParsesSmaller(c, s);
      var rest := ReportedIsSecret(c, FieldPath(path, "~"), c.parse(s).value, p);
      steps := [Inside] + rest;
      assert At(c, Str(s), [Inside]) == Some(c.parse(s).value);
      BelowNext(c, path, Str(s), Inside, rest);
      TextNext(path, steps);
    }
  }

  lemma {:induction false} ReportedItem(c: Context, path: string, index: nat, v: seq<Json>, p: string)
    returns (i: nat)
    requires Faithful(c) && p in WalkItems(c, path, index, v).2
    ensures i < |v| && p in Walk(c, ItemPath(path, index + i), v[i]).secrets
    decreases |v|
  {
    hide Walk, ItemPath;
    if p in Walk(c, ItemPath(path, index), v[0]).secrets {
      i := 0;
    } else {
      var k := ReportedItem(c, path, index + 1, v[1..], p);
      i := k + 1;
      assert index + 1 + k == index + i && v[1..][k] == v[i];
    }
  }

  lemma {:induction false} ReportedField(c: Context, path: string, v: seq<Field>, p: string)
    returns (i: nat)
    requires Faithful(c) && p in WalkFields(c, path, v).2
    ensures i < |v| && p in Walk(c, FieldPath(path, v[i].key), v[i].value).secrets
    decreases |v|
  {
    hide Walk, FieldPath;
    if p in Walk(c, FieldPath(path, v[0].key), v[0].value).secrets {
      i := 0;
    } else {
      var k := ReportedField(c, path, v[1..], p);
      i := k + 1;
      assert v[1..][k] == v[i];
    }
  }

  /** A payload with such a secret does not go unreported. */
  lemma {:induction false} SecretIsReported(c: Context, path: string, v: Json, steps: seq<Step>)
    requires Faithful(c) && SecretBelow(c, path, v, steps)
    ensures Walk(c, path, v).secrets != []
    decreases |steps|
  {
    hide Ungoverned, Excused, SecretSeen, RuleAt, SecretBelow, Segments, Walk, At;
    if steps == [] {
      RootSecret(c, path, v);
    } else {
      var step, rest := steps[0], steps[1..];
      assert steps == [step] + rest;
      StepOf(c, path, v, steps);
      BelowNext(c, path, v, step, rest);
      SecretIsReported(c, WalkedPath(path, step), At(c, v, [step]).value, rest);
      ChildReports(c, path, v, step);
    }
  }

  lemma ChildReports(c: Context, path: string, v: Json, step: Step)
    requires Faithful(c) && At(c, v, [step]).Some? && (step.Inside? ==> Ungoverned(c, Segments(path)))
    requires Walk(c, WalkedPath(path, step), At(c, v, [step]).value).secrets != []
    ensures Walk(c, path, v).secrets != []
  {
    hide HandleString, ItemPath, FieldPath, Ungoverned, Segments;
    var p := Walk(c, WalkedPath(path, step), At(c, v, [step]).value).secrets[0];
    assert [step][1..] == [];
    match step
    case Member(i, key) =>
      assert v.fields[i].key == key && At(c, v, [step]) == Some(v.fields[i].value);
      FieldReports(c, path, v.fields, i);
      assert p in WalkFields(c, path, v.fields).2;
    case Item(i) =>
      assert 0 + i == i;
      ItemReports(c, path, 0, v.items, i);
      assert At(c, v, [step]) == Some(v.items[i]) && p in WalkItems(c, path, 0, v.items).2;
    case Inside => TextReports(c, path, v.s);
  }

  lemma RootSecret(c: Context, path: string, v: Json)
    requires Faithful(c) && SecretBelow(c, path, v, [])
    ensures Walk(c, path, v).secrets != []
  {
    RuleAtIs(c, path);
    SecretSeenIff(c, path, v.s);
    assert Walk(c, path, v) == HandleString(c, path, v.s);
  }

  lemma StepOf(c: Context, path: string, v: Json, steps: seq<Step>)
    requires steps != [] && SecretBelow(c, path, v, steps)
    ensures At(c, v, [steps[0]]).Some?
    ensures steps[0].Member? ==> v.Obj? && steps[0].i < |v.fields| && v.fields[steps[0].i].key == steps[0].key
    ensures steps[0].Item? ==> v.Arr? && steps[0].i < |v.items|
    ensures steps[0].Inside? ==> v.Str? && IsText(c, v.s) && Ungoverned(c, Segments(path))
  {
    assert [steps[0]][1..] == [];
  }

  lemma TextReports(c: Context, path: string, s: string)
    requires Faithful(c) && IsText(c, s) && Ungoverned(c, Segments(path))
    requires Walk(c, FieldPath(path, "~"), c.parse(s).value).secrets != []
    ensures Walk(c, path, Str(s)).secrets != []
  {
    RuleAtIs(c, path);
    assert TryParseJson(c, s) == c.parse(s);
    assert Walk(c, path, Str(s)) == HandleString(c, path, s);
  }

  /**
   Secrets are found wherever they stand, in texts too, and nowhere else; a policy that blocks on secrets blocks
   exactly the payloads that hold one, and names only paths that lead to one.
   */
  lemma SecretsAreFoundIff(c: Context, v: Json)
    requires Faithful(c) && c.policy.enabled
    ensures var r := RedactValue(c, true, v);
      && (r.Blocked? <==> c.policy.blockOnSecret && exists steps :: SecretBelow(c, "", v, steps))
      && (r.Done? ==> (r.secretDetected <==> exists steps :: SecretBelow(c, "", v, steps)))
      && (r.Blocked? ==> forall p | p in r.secretPaths :: LeadsToSecret(c, v, p))
  {
    hide SecretBelow, Walk;
    var secrets := Walk(c, "", v).secrets;
    forall p | p in secrets
      ensures LeadsToSecret(c, v, p) && exists steps :: SecretBelow(c, "", v, steps)
    {
      var steps := ReportedIsSecret(c, "", v, p);
    }
    forall steps | SecretBelow(c, "", v, steps)
      ensures secrets != []
    {
      SecretIsReported(c, "", v, steps);
    }
    if secrets != [] {
      assert secrets[0] in secrets;
    }
  }

  ghost predicate LeadsToSecret(c: Context, v: Json, p: string) {
    exists steps ::
      SecretBelow(c, "", v, steps) && p == if TextAlong("", steps) == "" then "$" else TextAlong("", steps)
  }

  // ---------------------------------------------------------------------------------------------
  // Reports
  // ---------------------------------------------------------------------------------------------

  /** A rule that is not overridden treats the string there, and the event says which and how. */
  ghost predicate TellsRule(c: Context, path: string, e: Event) {
    exists i: nat ::
      && Governs(c, Segments(path), i) && !AllowedAt(c, Segments(path))
      && Applies(c.policy, c.rules[i], e.action) && e.action != Keep
      && e.sensitivity == c.rules[i].sensitivity && e.ruleFingerprint == Some(c.fingerprint(c.rules[i]))
  }

  /** No rule treats the JSON text there, and the event says that it was rewritten. */
  ghost predicate TellsRewrite(c: Context, path: string, s: string, e: Event) {
    && Ungoverned(c, Segments(path)) && IsText(c, s)
    && e.action == Redact && e.sensitivity == High && e.ruleFingerprint == None
  }

  /** The event tells what happened to the string below `path` at `steps`. */
  ghost predicate TellsOf(c: Context, path: string, v: Json, steps: seq<Step>, e: Event) {
    var there := TextAlong(path, steps);
    && At(c, v, steps).Some? && At(c, v, steps).value.Str? && Opens(c, path, steps) && e.field == there
    && (TellsRule(c, there, e) || TellsRewrite(c, there, At(c, v, steps).value.s, e))
  }

  lemma TellsNext(c: Context, path: string, v: Json, step: Step, steps: seq<Step>, e: Event)
    requires At(c, v, [step]).Some? && (step.Inside? ==> Ungoverned(c, Segments(path)))
    ensures TellsOf(c, path, v, [step] + steps, e)
      <==> TellsOf(c, WalkedPath(path, step), At(c, v, [step]).value, steps, e)
  {
    var whole := [step] + steps;
    assert whole[1..] == steps && whole[0] == step && [step][1..] == [];
    TextNext(path, whole);
  }

  /** Every event that a walk reports tells of a string that was treated or rewritten. */
  lemma {:induction false} EventTells(c: Context, path: string, v: Json, e: Event) returns (steps: seq<Step>)
    requires Faithful(c) && e in Walk(c, path, v).events
    ensures TellsOf(c, path, v, steps, e)
    decreases LongestLeaf(v), v, 1
  {
    hide Ungoverned, RuleAt, TellsOf, HandleString, WalkItems, WalkFields;
    match v
    case Str(s) =>
      steps := TextEventTells(c, path, s, e);
    case Arr(items) =>
      var i := EventOfItem(c, path, 0, items, e);
      LongestItem(items, i);
      var rest := EventTells(c, ItemPath(path, i), items[i], e);
      steps := [Item(i)] + rest;
      assert At(c, v, [Item(i)]) == Some(items[i]);
      TellsNext(c, path, v, Item(i), rest, e);
    case Obj(fields) =>
      var i := EventOfField(c, path, fields, e);
      LongestField(fields, i);
      var step := Member(i, fields[i].key);
      var rest := EventTells(c, FieldPath(path, fields[i].key), fields[i].value, e);
      steps := [step] + rest;
      assert At(c, v, [step]) == Some(fields[i].value);
      TellsNext(c, path, v, step, rest, e);
    case _ => steps := [];
  }

  lemma {:induction false} TextEventTells(c: Context, path: string, s: string, e: Event) returns (steps: seq<Step>)
    requires Faithful(c) && e in HandleString(c, path, s).events
    ensures TellsOf(c, path, Str(s), steps, e)
    decreases |s|, Str(s), 0
  {
    hide Ungoverned, RuleAt, SecretSeen, Governs, Applies, EffectiveAction;
    RuleAtIs(c, path);
    if RuleAt(c, path).Some? {
      steps := [];
      RuleEventTells(c, path, s, e);
    } else {
      assert TryParseJson(c, s).Some? && IsText(c, s);
      assert ParsesSmaller(c, s);
      var inner := Walk(c, FieldPath(path, "~"), c.parse(s).value);
      if e in inner.events {
        var rest := EventTells(c, FieldPath(path, "~"), c.parse(s).value, e);
        steps := [Inside] + rest;
        assert At(c, Str(s), [Inside]) == Some(c.parse(s).value);
        TellsNext(c, path, Str(s), Inside, rest, e);
      } else {
        steps := [];
        assert e == Event(path, Redact, High, None);
        assert TellsRewrite(c, path, s, e);
      }
    }
  }

  lemma RuleEventTells(c: Context, path: string, s: string, e: Event)
    requires Faithful(c) && RuleAt(c, path).Some? && e in HandleString(c, path, s).events
    ensures TellsRule(c, path, e) && e.field == path
  {
    hide Governs, AllowedAt, Applies, EffectiveAction, RuleAt;
    RuleAtIs(c, path);
    UngovernedIf(c, Segments(path));
    var i: nat :| Governs(c, Segments(path), i);
    ActionIs(c, RuleAt(c, path).value, s);
    assert e.field == path;
    assert Applies(c.policy, c.rules[i], e.action);
  }

  lemma UngovernedIf(c: Context, segments: seq<string>)
    ensures AllowedAt(c, segments) ==> Ungoverned(c, segments)
    ensures forall i: nat | Governs(c, segments, i) :: i < |c.rules|
  {
  }

  lemma {:induction false} EventOfItem(c: Context, path: string, index: nat, v: seq<Json>, e: Event)
    returns (i: nat)
    requires Faithful(c) && e in WalkItems(c, path, index, v).1
    ensures i < |v| && e in Walk(c, ItemPath(path, index + i), v[i]).events
    decreases |v|
  {
    hide Walk, ItemPath;
    if e in Walk(c, ItemPath(path, index), v[0]).events {
      i := 0;
    } else {
      var k := EventOfItem(c, path, index + 1, v[1..], e);
      i := k + 1;
      assert index + 1 + k == index + i && v[1..][k] == v[i];
    }
  }

  lemma {:induction false} EventOfField(c: Context, path: string, v: seq<Field>, e: Event) returns (i: nat)
    requires Faithful(c) && e in WalkFields(c, path, v).1
    ensures i < |v| && e in Walk(c, FieldPath(path, v[i].key), v[i].value).events
    decreases |v|
  {
    hide Walk, FieldPath;
    if e in Walk(c, FieldPath(path, v[0].key), v[0].value).events {
      i := 0;
    } else {
      var k := EventOfField(c, path, v[1..], e);
      i := k + 1;
      assert v[1..][k] == v[i];
    }
  }

  /** The decision reports nothing but treated strings and rewritten texts, so a kept string is never reported. */
  lemma EventsAreTrue(c: Context, v: Json, e: Event)
    requires Faithful(c) && c.policy.enabled && RedactValue(c, true, v).Done?
    requires e in RedactValue(c, true, v).events
    ensures exists steps :: TellsOf(c, "", v, steps, e)
  {
    var steps := EventTells(c, "", v, e);
  }
}
