/**
 The redaction engine: a recursive transformer over JSON values, including JSON held in strings. The
 walk is written as functions that return the new value together with the events and secret paths
 they append; `RedactionService` has the loops that append to a shared context.
 */
module Redaction {
  import opened Arithmetic
  import opened Wrappers
  import opened FieldRegistry
  import opened Sequences
  import Text

  const REDACTION_MARKER := "[REDACTED]"
  const PSEUDONYM_PREFIX := "psn:"

  /** Numbers are opaque: `repr` stands for the IEEE value, which the engine only passes along. */
  datatype Json =
    | Null
    | Undefined
    | Bool(b: bool)
    | Num(repr: string)
    | Str(s: string)
    | Arr(items: seq<Json>)
    | Obj(fields: seq<Field>)

  datatype Field = Field(key: string, value: Json)

  datatype Policy = Policy(
    enabled: bool, levelActions: map<Sensitivity, Action>, pseudonymizeLevels: set<Sensitivity>,
    allowList: seq<string>, blockOnSecret: bool)

  datatype Event = Event(field: string, action: Action, sensitivity: Sensitivity, ruleFingerprint: Option<string>)

  /** The parts of the platform that stay abstract, and the fixed inputs of one call. */
  datatype Context = Context(
    policy: Policy, rules: seq<FieldRule>, namespace: string,
    hasSecret: string -> bool,
    digest: (string, string) -> string,
    fingerprint: FieldRule -> string,
    parse: string -> Option<Json>,
    stringify: Json -> string,
    isKeyList: seq<string> -> bool)

  datatype Out = Out(value: Json, events: seq<Event>, secrets: seq<string>)

  // ---------------------------------------------------------------------------------------------
  // What is known of JSON.parse and JSON.stringify
  // ---------------------------------------------------------------------------------------------

  /** The length of the longest string leaf, 0 without any. */
  function LongestLeaf(v: Json): nat {
    match v
    case Str(s) => |s|
    case Arr(items) => LongestOfItems(items)
    case Obj(fields) => LongestOfFields(fields)
    case _ => 0
  }

  function LongestOfItems(items: seq<Json>): nat {
    if items == [] then 0 else Max(LongestLeaf(items[0]), LongestOfItems(items[1..]))
  }

  function LongestOfFields(fields: seq<Field>): nat {
    if fields == [] then 0 else Max(LongestLeaf(fields[0].value), LongestOfFields(fields[1..]))
  }

  lemma {:induction false} LongestItem(v: seq<Json>, i: nat)
    requires i < |v|
    ensures LongestLeaf(v[i]) <= LongestOfItems(v)
  {
    if i > 0 {
      LongestItem(v[1..], i - 1);
    }
  }

  lemma {:induction false} LongestField(v: seq<Field>, i: nat)
    requires i < |v|
    ensures LongestLeaf(v[i].value) <= LongestOfFields(v)
  {
    if i > 0 {
      LongestField(v[1..], i - 1);
    }
  }

  predicate Container(v: Json) {
    v.Arr? || v.Obj?
  }

  function KeysOf(fields: seq<Field>): (keys: seq<string>)
    ensures |keys| == |fields|
  {
    seq(|fields|, i requires 0 <= i < |fields| => fields[i].key)
  }

  /**
   Without `undefined`, which JSON text cannot express, and with key lists that an object can have: no key
   twice, and in the order in which the platform enumerates them.
   */
  predicate Defined(c: Context, v: Json)
    decreases v
  {
    match v
    case Undefined => false
    case Arr(items) => forall i | 0 <= i < |items| :: Defined(c, items[i])
    case Obj(fields) => c.isKeyList(KeysOf(fields)) && forall i | 0 <= i < |fields| :: Defined(c, fields[i].value)
    case _ => true
  }

  /**
   The same value but for numbers: serialising turns `-0` into `0` and an infinity into `null`, so
   that is what a round trip through text gives back.
   */
  predicate Renumbered(v: Json, w: Json) {
    match v
    case Num(_) => w.Num? || w.Null?
    case Arr(items) =>
      w.Arr? && |w.items| == |items| && forall i | 0 <= i < |items| :: Renumbered(items[i], w.items[i])
    case Obj(fields) =>
      && w.Obj? && |w.fields| == |fields|
      && forall i | 0 <= i < |fields| ::
        fields[i].key == w.fields[i].key && Renumbered(fields[i].value, w.fields[i].value)
    case _ => v == w
  }

  predicate LooksLikeJson(s: string) {
    |s| >= 2 && (s[0] == '{' || s[0] == '[')
  }

  /** Parsed text is an object or array whose strings are strictly shorter than the text. */
  predicate ParsesSmaller(c: Context, s: string) {
    LooksLikeJson(s) && c.parse(s).Some? ==>
      && LongestLeaf(c.parse(s).value) < |s|
      && Container(c.parse(s).value) && Defined(c, c.parse(s).value)
  }

  /** A round trip through text keeps `v` up to its numbers, and from then on keeps the text. */
  predicate RoundTrips(c: Context, v: Json) {
    var text := c.stringify(v);
    && LooksLikeJson(text) && c.parse(text).Some?
    && Renumbered(v, c.parse(text).value) && c.stringify(c.parse(text).value) == text
  }

  ghost predicate Faithful(c: Context) {
    && (forall s {:trigger ParsesSmaller(c, s)} :: ParsesSmaller(c, s))
    && (forall v {:trigger RoundTrips(c, v)} :: Container(v) && Defined(c, v) ==> RoundTrips(c, v))
  }

  /** `tryParseJson`. */
  function TryParseJson(c: Context, s: string): Option<Json> {
    if LooksLikeJson(s) then c.parse(s) else None
  }

  // ---------------------------------------------------------------------------------------------
  // Actions on strings
  // ---------------------------------------------------------------------------------------------

  function ResolveAction(rule: FieldRule, policy: Policy): Action {
    if rule.action.Some? then rule.action.value
    else if rule.sensitivity in policy.levelActions then policy.levelActions[rule.sensitivity]
    else Redact
  }

  /** The action carried out: a pseudonymised level overrides whatever was resolved. */
  function EffectiveAction(rule: FieldRule, policy: Policy): Action {
    if rule.sensitivity in policy.pseudonymizeLevels then Pseudonymize else ResolveAction(rule, policy)
  }

  predicate IsAllowed(allowList: seq<string>, path: string) {
    exists i | 0 <= i < |allowList| :: PathMatches(allowList[i], path)
  }

  /** The rule that governs the string at `path`, unless the sink allows the path. */
  function RuleAt(c: Context, path: string): Option<FieldRule> {
    if IsAllowed(c.policy.allowList, path) then None else Classify(c.rules, path)
  }

  function PseudonymOf(c: Context, s: string): string {
    if PSEUDONYM_PREFIX <= s then s else PSEUDONYM_PREFIX + c.digest(s, c.namespace)
  }

  function Obfuscated(s: string): string {
    if |s| <= 4 then REDACTION_MARKER else s[..2] + "****" + s[|s| - 4..]
  }

  function Treated(c: Context, action: Action, s: string): string {
    match action
    case Keep => s
    case Redact => REDACTION_MARKER
    case Pseudonymize => PseudonymOf(c, s)
    case Obfuscate => Obfuscated(s)
  }

  /** `m.path.replace(/^\$\./, "")`. */
  function WithoutDollar(path: string): string {
    if "$." <= path then path[2..] else path
  }

  /** A secret at an allow-listed path passes; matches at the root carry no path and never do. */
  predicate SecretAllowed(c: Context, path: string) {
    path != "" && path != "$" && WithoutDollar(path) in c.policy.allowList
  }

  /** A secret that counts against the payload. */
  predicate SecretSeen(c: Context, path: string, s: string) {
    c.hasSecret(s) && !SecretAllowed(c, path)
  }

  // ---------------------------------------------------------------------------------------------
  // The walk
  // ---------------------------------------------------------------------------------------------

  function ItemPath(path: string, index: nat): string {
    path + "[" + Text.IntText(index) + "]"
  }

  function FieldPath(path: string, key: string): string {
    if path == "" then key else path + "." + key
  }

  function Walk(c: Context, path: string, v: Json): Out
    requires Faithful(c)
    decreases LongestLeaf(v), v, 1
  {
    match v
    case Str(s) => HandleString(c, path, s)
    case Arr(items) =>
      var o := WalkItems(c, path, 0, items);
      Out(Arr(o.0), o.1, o.2)
    case Obj(fields) =>
      var o := WalkFields(c, path, fields);
      Out(Obj(o.0), o.1, o.2)
    case _ => Out(v, [], [])
  }

  function WalkItems(c: Context, path: string, index: nat, items: seq<Json>)
    : (o: (seq<Json>, seq<Event>, seq<string>))
    requires Faithful(c)
    ensures |o.0| == |items|
    decreases LongestOfItems(items), items, 0
  {
    if items == [] then
      ([], [], [])
    else
      var first := Walk(c, ItemPath(path, index), items[0]);
      var rest := WalkItems(c, path, index + 1, items[1..]);
      ([first.value] + rest.0, first.events + rest.1, first.secrets + rest.2)
  }

  function WalkFields(c: Context, path: string, fields: seq<Field>)
    : (o: (seq<Field>, seq<Event>, seq<string>))
    requires Faithful(c)
    ensures |o.0| == |fields|
    decreases LongestOfFields(fields), fields, 0
  {
    if fields == [] then
      ([], [], [])
    else
      var first := Walk(c, FieldPath(path, fields[0].key), fields[0].value);
      var rest := WalkFields(c, path, fields[1..]);
      ([Field(fields[0].key, first.value)] + rest.0, first.events + rest.1, first.secrets + rest.2)
  }

  function HandleString(c: Context, path: string, s: string): (o: Out)
    requires Faithful(c)
    ensures o.value.Str?
    decreases |s|, Str(s), 0
  {
    var rule := RuleAt(c, path);
    if rule.Some? then
      var action := EffectiveAction(rule.value, c.policy);
      Out(
        Str(Treated(c, action, s)),
        if action == Keep then []
        else [Event(path, action, rule.value.sensitivity, Some(c.fingerprint(rule.value)))],
        [])
    else
      var secrets := if SecretSeen(c, path, s) then [if path == "" then "$" else path] else [];
      if secrets != [] && c.policy.blockOnSecret then
        Out(Str(s), [], secrets)
      else
        var parsed := TryParseJson(c, s);
        if parsed.None? then
          Out(Str(s), [], secrets)
        else
          assert ParsesSmaller(c, s);
          var walked := Walk(c, FieldPath(path, "~"), parsed.value);
          var text := c.stringify(walked.value);
          if text == s then
            Out(Str(s), walked.events, secrets + walked.secrets)
          else
            Out(Str(text), walked.events + [Event(path, Redact, High, None)], secrets + walked.secrets)
  }

  // ---------------------------------------------------------------------------------------------
  // redact
  // ---------------------------------------------------------------------------------------------

  datatype Outcome =
    | Blocked(secretPaths: seq<string>)
    | Done(output: Json, modified: bool, secretDetected: bool, events: seq<Event>)

  function RedactValue(c: Context, redactionEnabled: bool, input: Json): Outcome
    requires Faithful(c)
  {
    if !redactionEnabled || !c.policy.enabled then
      Done(input, false, false, [])
    else
      var o := Walk(c, "", input);
      if o.secrets != [] && c.policy.blockOnSecret then Blocked(o.secrets)
      else Done(o.value, o.events != [], o.secrets != [], o.events)
  }

  // ---------------------------------------------------------------------------------------------
  // Noninterference
  // ---------------------------------------------------------------------------------------------

  /** The string at `path` is replaced by the marker whatever it is. */
  predicate Hidden(c: Context, path: string) {
    RuleAt(c, path).Some? && EffectiveAction(RuleAt(c, path).value, c.policy) == Redact
  }

  /** Whether serialising the walked content of the JSON text `s` gives another text. */
  predicate Respelled(c: Context, path: string, s: string)
    requires Faithful(c) && TryParseJson(c, s).Some?
  {
    c.stringify(Walk(c, FieldPath(path, "~"), TryParseJson(c, s).value).value) != s
  }

  /**
   The same shape, differing only in string leaves at hidden paths, inside JSON texts too. Two JSON texts must
   also agree on whether they count as secrets, block nothing, and agree on whether they are respelled.
   */
  predicate LooksSame(c: Context, path: string, v: Json, w: Json)
    requires Faithful(c)
    decreases LongestLeaf(v), v
  {
    match v
    case Str(s) => w.Str? && (s == w.s || Hidden(c, path) || TextsLookSame(c, path, s, w.s))
    case Arr(items) =>
      && w.Arr? && |w.items| == |items|
      && forall i | 0 <= i < |items| :: LongestItem(items, i); LooksSame(c, ItemPath(path, i), items[i], w.items[i])
    case Obj(fields) =>
      && w.Obj? && |w.fields| == |fields|
      && forall i | 0 <= i < |fields| ::
        LongestField(fields, i);
        && fields[i].key == w.fields[i].key
        && LooksSame(c, FieldPath(path, fields[i].key), fields[i].value, w.fields[i].value)
    case _ => v == w
  }

  predicate TextsLookSame(c: Context, path: string, s: string, t: string)
    requires Faithful(c)
    decreases |s|, Str(s), 0
  {
    && RuleAt(c, path).None? && TryParseJson(c, s).Some? && TryParseJson(c, t).Some?
    && (assert ParsesSmaller(c, s);
        LooksSame(c, FieldPath(path, "~"), TryParseJson(c, s).value, TryParseJson(c, t).value))
    && SameVerdicts(c, path, s, t)
  }

  predicate SameVerdicts(c: Context, path: string, s: string, t: string)
    requires Faithful(c) && TryParseJson(c, s).Some? && TryParseJson(c, t).Some?
  {
    && SecretSeen(c, path, s) == SecretSeen(c, path, t)
    && !(SecretSeen(c, path, s) && c.policy.blockOnSecret)
    && Respelled(c, path, s) == Respelled(c, path, t)
  }

  lemma {:induction false} WalkHides(c: Context, path: string, v: Json, w: Json)
    requires Faithful(c) && LooksSame(c, path, v, w)
    ensures Walk(c, path, v) == Walk(c, path, w)
    decreases LongestLeaf(v), v, 1
  {
    hide WalkItems, WalkFields, RuleAt, EffectiveAction;
    match v
    case Str(s) =>
      if s != w.s && !Hidden(c, path) {
        assert ParsesSmaller(c, s);
        WalkHides(c, FieldPath(path, "~"), TryParseJson(c, s).value, TryParseJson(c, w.s).value);
      }
    case Arr(items) => ItemsHide(c, path, 0, items, w.items);
    case Obj(fields) => FieldsHide(c, path, fields, w.fields);
    case _ =>
  }

  lemma {:induction false} ItemsHide(c: Context, path: string, index: nat, v: seq<Json>, w: seq<Json>)
    requires Faithful(c) && |v| == |w|
    requires forall i :: 0 <= i < |v| ==> LooksSame(c, ItemPath(path, index + i), v[i], w[i])
    ensures WalkItems(c, path, index, v) == WalkItems(c, path, index, w)
    decreases LongestOfItems(v), v, 0
  {
    if v != [] {
      assert LooksSame(c, ItemPath(path, index + 0), v[0], w[0]);
      WalkHides(c, ItemPath(path, index), v[0], w[0]);
      forall i | 0 <= i < |v[1..]|
        ensures LooksSame(c, ItemPath(path, index + 1 + i), v[1..][i], w[1..][i])
      {
        assert LooksSame(c, ItemPath(path, index + (i + 1)), v[i + 1], w[i + 1]);
      }
      ItemsHide(c, path, index + 1, v[1..], w[1..]);
    }
  }

  lemma {:induction false} FieldsHide(c: Context, path: string, v: seq<Field>, w: seq<Field>)
    requires Faithful(c) && |v| == |w|
    requires forall i :: 0 <= i < |v| ==>
      v[i].key == w[i].key && LooksSame(c, FieldPath(path, v[i].key), v[i].value, w[i].value)
    ensures WalkFields(c, path, v) == WalkFields(c, path, w)
    decreases LongestOfFields(v), v, 0
  {
    if v != [] {
      WalkHides(c, FieldPath(path, v[0].key), v[0].value, w[0].value);
      FieldsHide(c, path, v[1..], w[1..]);
    }
  }

  /** For two JSON texts with the same look inside, the verdicts are all that can tell them apart. */
  lemma TextsAreHiddenIff(c: Context, path: string, s: string, t: string)
    requires Faithful(c) && RuleAt(c, path).None? && TryParseJson(c, s).Some? && TryParseJson(c, t).Some?
    requires LooksSame(c, FieldPath(path, "~"), TryParseJson(c, s).value, TryParseJson(c, t).value)
    ensures HandleString(c, path, s) == HandleString(c, path, t) <==> s == t || SameVerdicts(c, path, s, t)
  {
    hide LooksSame, Walk, Segments;
    WalkHides(c, FieldPath(path, "~"), TryParseJson(c, s).value, TryParseJson(c, t).value);
    var o, o' := HandleString(c, path, s), HandleString(c, path, t);
    if o == o' {
      assert |o.secrets| == |o'.secrets| && |o.events| == |o'.events|;
    }
  }

  /** Nothing about a hidden string reaches the output, the events or the decision to block. */
  lemma Noninterference(c: Context, v: Json, w: Json)
    requires Faithful(c) && c.policy.enabled && LooksSame(c, "", v, w)
    ensures RedactValue(c, true, v) == RedactValue(c, true, w)
  {
    WalkHides(c, "", v, w);
  }

  // ---------------------------------------------------------------------------------------------
  // Changes are reported
  // ---------------------------------------------------------------------------------------------

  lemma {:induction false} SilentWalkKeeps(c: Context, path: string, v: Json)
    requires Faithful(c) && Walk(c, path, v).events == []
    ensures Walk(c, path, v).value == v
    decreases v, 1
  {
    match v
    case Arr(items) => SilentItemsKeep(c, path, 0, items);
    case Obj(fields) => SilentFieldsKeep(c, path, fields);
    case _ =>
  }

  lemma BothEmpty<T>(a: seq<T>, b: seq<T>)
    requires a + b == []
    ensures a == [] && b == []
  {
    assert |a| + |b| == 0;
  }

  lemma {:induction false} SilentItemsKeep(c: Context, path: string, index: nat, v: seq<Json>)
    requires Faithful(c) && WalkItems(c, path, index, v).1 == []
    ensures WalkItems(c, path, index, v).0 == v
    decreases v, 0
  {
    if v != [] {
      var first, rest := Walk(c, ItemPath(path, index), v[0]), WalkItems(c, path, index + 1, v[1..]);
      BothEmpty(first.events, rest.1);
      SilentWalkKeeps(c, ItemPath(path, index), v[0]);
      SilentItemsKeep(c, path, index + 1, v[1..]);
      HeadAndTail(v);
    }
  }

  lemma {:induction false} SilentFieldsKeep(c: Context, path: string, v: seq<Field>)
    requires Faithful(c) && WalkFields(c, path, v).1 == []
    ensures WalkFields(c, path, v).0 == v
    decreases v, 0
  {
    if v != [] {
      var first, rest := Walk(c, FieldPath(path, v[0].key), v[0].value), WalkFields(c, path, v[1..]);
      BothEmpty(first.events, rest.1);
      SilentWalkKeeps(c, FieldPath(path, v[0].key), v[0].value);
      SilentFieldsKeep(c, path, v[1..]);
      HeadAndTail(v);
    }
  }

  /** Output that differs from the input is marked as modified. */
  lemma ChangeIsReported(c: Context, redactionEnabled: bool, input: Json)
    requires Faithful(c)
    ensures var r := RedactValue(c, redactionEnabled, input);
      r.Done? && r.output != input ==> r.modified
  {
    if Walk(c, "", input).events == [] {
      SilentWalkKeeps(c, "", input);
    }
  }

  /** A JSON text with nothing to change inside is still reported when it is spelled otherwise. */
  lemma SpellingIsReportedIff(c: Context, path: string, s: string)
    requires Faithful(c) && RuleAt(c, path).None? && TryParseJson(c, s).Some?
    requires !(SecretSeen(c, path, s) && c.policy.blockOnSecret)
    requires Walk(c, FieldPath(path, "~"), TryParseJson(c, s).value).events == []
    ensures HandleString(c, path, s).events != [] <==> c.stringify(TryParseJson(c, s).value) != s
  {
    SilentWalkKeeps(c, FieldPath(path, "~"), TryParseJson(c, s).value);
  }

  // ---------------------------------------------------------------------------------------------
  // A second pass
  // ---------------------------------------------------------------------------------------------

  /** The string at `path` is obfuscated, all overrides considered. */
  predicate Obfuscates(c: Context, path: string) {
    RuleAt(c, path).Some? && EffectiveAction(RuleAt(c, path).value, c.policy) == Obfuscate
  }

  ghost predicate NeverObfuscates(c: Context) {
    forall path :: !Obfuscates(c, path)
  }

  /** It is enough that no rule and no level of the policy asks for it. */
  lemma NobodyAsks(c: Context)
    requires forall i :: 0 <= i < |c.rules| ==> c.rules[i].action != Some(Obfuscate)
    requires forall level :: level in c.policy.levelActions ==> c.policy.levelActions[level] != Obfuscate
    ensures NeverObfuscates(c)
  {
    forall path | RuleAt(c, path).Some?
      ensures !Obfuscates(c, path)
    {
      RuleIsListed(c.rules, |c.rules|, path);
    }
  }

  /** Obfuscation alone: repeating it changes nothing exactly for strings longer than four. */
  lemma ObfuscatedTwice(s: string)
    ensures Obfuscated(Obfuscated(s)) == Obfuscated(s) <==> |s| > 4
  {
    var o := Obfuscated(s);
    if |s| > 4 {
      assert o[..2] == s[..2];
      assert o[|o| - 4..] == s[|s| - 4..];
    } else {
      assert Obfuscated(REDACTION_MARKER)[2] == '*';
    }
  }

  lemma {:induction false} RuleIsListed(rules: seq<FieldRule>, n: nat, path: string)
    requires n <= |rules| && ClassifyAmong(rules, n, path).Some?
    ensures ClassifyAmong(rules, n, path).value in rules
  {
    if ClassifyAmong(rules, n, path) != Some(rules[n - 1]) {
      RuleIsListed(rules, n - 1, path);
    }
  }

  lemma TreatedTwice(c: Context, path: string, s: string)
    requires RuleAt(c, path).Some? && !Obfuscates(c, path)
    ensures var action := EffectiveAction(RuleAt(c, path).value, c.policy);
      Treated(c, action, Treated(c, action, s)) == Treated(c, action, s)
  {
  }

  lemma {:induction false} ItemAt(c: Context, path: string, index: nat, v: seq<Json>, i: nat)
    requires Faithful(c) && i < |v|
    ensures WalkItems(c, path, index, v).0[i] == Walk(c, ItemPath(path, index + i), v[i]).value
    decreases |v|
  {
    if i > 0 {
      assert v[1..][i - 1] == v[i];
      ItemAt(c, path, index + 1, v[1..], i - 1);
      var at := index + i;
      assert index + 1 + (i - 1) == at;
      TailAt(Walk(c, ItemPath(path, index), v[0]).value, WalkItems(c, path, index + 1, v[1..]).0, i);
    }
  }

  lemma TailAt<T>(head: T, tail: seq<T>, i: nat)
    requires 0 < i <= |tail|
    ensures ([head] + tail)[i] == tail[i - 1]
  {
  }

  lemma {:induction false} FieldAt(c: Context, path: string, v: seq<Field>, i: nat)
    requires Faithful(c) && i < |v|
    ensures WalkFields(c, path, v).0[i] == Field(v[i].key, Walk(c, FieldPath(path, v[i].key), v[i].value).value)
    decreases |v|
  {
    if i > 0 {
      FieldAt(c, path, v[1..], i - 1);
      assert v[1..][i - 1] == v[i];
      var head := Field(v[0].key, Walk(c, FieldPath(path, v[0].key), v[0].value).value);
      TailAt(head, WalkFields(c, path, v[1..]).0, i);
    }
  }

  /** The walk leaves `v` alone. */
  predicate Fixed(c: Context, path: string, v: Json)
    requires Faithful(c)
  {
    Walk(c, path, v).value == v
  }

  ghost predicate ItemsFixed(c: Context, path: string, v: seq<Json>)
    requires Faithful(c)
  {
    forall i :: 0 <= i < |v| ==> Fixed(c, ItemPath(path, i), v[i])
  }

  ghost predicate FieldsFixed(c: Context, path: string, v: seq<Field>)
    requires Faithful(c)
  {
    forall i :: 0 <= i < |v| ==> Fixed(c, FieldPath(path, v[i].key), v[i].value)
  }

  /** A container is left alone exactly when all of its members are. */
  lemma FixedByMembers(c: Context, path: string, v: Json)
    requires Faithful(c)
    ensures v.Arr? ==> (Fixed(c, path, v) <==> ItemsFixed(c, path, v.items))
    ensures v.Obj? ==> (Fixed(c, path, v) <==> FieldsFixed(c, path, v.fields))
  {
    match v
    case Arr(items) =>
      forall i | 0 <= i < |items|
        ensures WalkItems(c, path, 0, items).0[i] == Walk(c, ItemPath(path, i), items[i]).value
      {
        ItemAt(c, path, 0, items, i);
      }
    case Obj(fields) =>
      forall i | 0 <= i < |fields|
        ensures WalkFields(c, path, fields).0[i]
          == Field(fields[i].key, Walk(c, FieldPath(path, fields[i].key), fields[i].value).value)
      {
        FieldAt(c, path, fields, i);
      }
    case _ =>
  }

  /** Numbers do not matter to the walk. */
  lemma {:induction false} RenumberedStaysFixed(c: Context, path: string, v: Json, w: Json)
    requires Faithful(c) && Renumbered(v, w)
    ensures Fixed(c, path, v) <==> Fixed(c, path, w)
    decreases v
  {
    FixedByMembers(c, path, v);
    FixedByMembers(c, path, w);
    match v
    case Arr(items) =>
      forall i | 0 <= i < |items|
        ensures Fixed(c, ItemPath(path, i), items[i]) <==> Fixed(c, ItemPath(path, i), w.items[i])
      {
        RenumberedStaysFixed(c, ItemPath(path, i), items[i], w.items[i]);
      }
    case Obj(fields) =>
      forall i | 0 <= i < |fields|
        ensures var inner := FieldPath(path, fields[i].key);
          Fixed(c, inner, fields[i].value) <==> Fixed(c, inner, w.fields[i].value)
      {
        RenumberedStaysFixed(c, FieldPath(path, fields[i].key), fields[i].value, w.fields[i].value);
      }
    case _ =>
  }

  lemma WalkKeepsKeys(c: Context, path: string, fields: seq<Field>)
    requires Faithful(c)
    ensures KeysOf(WalkFields(c, path, fields).0) == KeysOf(fields)
  {
    forall i | 0 <= i < |fields|
      ensures KeysOf(WalkFields(c, path, fields).0)[i] == KeysOf(fields)[i]
    {
      FieldAt(c, path, fields, i);
    }
  }

  lemma {:induction false} WalkKeepsDefined(c: Context, path: string, v: Json)
    requires Faithful(c) && Defined(c, v)
    ensures Defined(c, Walk(c, path, v).value)
    ensures Container(v) ==> Container(Walk(c, path, v).value)
    decreases v
  {
    match v
    case Arr(items) =>
      forall i | 0 <= i < |items|
        ensures Defined(c, WalkItems(c, path, 0, items).0[i])
      {
        ItemAt(c, path, 0, items, i);
        WalkKeepsDefined(c, ItemPath(path, i), items[i]);
      }
    case Obj(fields) =>
      WalkKeepsKeys(c, path, fields);
      forall i | 0 <= i < |fields|
        ensures Defined(c, WalkFields(c, path, fields).0[i].value)
      {
        FieldAt(c, path, fields, i);
        WalkKeepsDefined(c, FieldPath(path, fields[i].key), fields[i].value);
      }
    case _ =>
  }

  /** Whatever the walk returns, it leaves alone. */
  lemma {:induction false} WalkedIsFixed(c: Context, path: string, v: Json)
    requires Faithful(c) && NeverObfuscates(c)
    ensures Fixed(c, path, Walk(c, path, v).value)
    decreases LongestLeaf(v), v, 1
  {
    hide HandleString, NeverObfuscates, WalkItems, WalkFields;
    FixedByMembers(c, path, Walk(c, path, v).value);
    match v
    case Str(s) => HandledIsFixed(c, path, s);
    case Arr(items) =>
      forall i | 0 <= i < |items|
        ensures Fixed(c, ItemPath(path, i), WalkItems(c, path, 0, items).0[i])
      {
        ItemAt(c, path, 0, items, i);
        LongestItem(items, i);
        WalkedIsFixed(c, ItemPath(path, i), items[i]);
      }
    case Obj(fields) =>
      var o := WalkFields(c, path, fields).0;
      forall i | 0 <= i < |fields|
        ensures Fixed(c, FieldPath(path, o[i].key), o[i].value)
      {
        FieldAt(c, path, fields, i);
        LongestField(fields, i);
        WalkedIsFixed(c, FieldPath(path, fields[i].key), fields[i].value);
      }
    case _ =>
  }

  lemma {:induction false} HandledIsFixed(c: Context, path: string, s: string)
    requires Faithful(c) && NeverObfuscates(c)
    ensures Fixed(c, path, HandleString(c, path, s).value)
    decreases |s|, Str(s), 0
  {
    var rule := RuleAt(c, path);
    if rule.Some? {
      TreatedTwice(c, path, s);
    } else if c.hasSecret(s) && !SecretAllowed(c, path) && c.policy.blockOnSecret {
    } else if TryParseJson(c, s).Some? {
      var inner := FieldPath(path, "~");
      var p := TryParseJson(c, s).value;
      var w := Walk(c, inner, p).value;
      assert ParsesSmaller(c, s);
      WalkedIsFixed(c, inner, p);
      WalkKeepsDefined(c, inner, p);
      assert RoundTrips(c, w);
      RenumberedStaysFixed(c, inner, w, c.parse(c.stringify(w)).value);
    }
  }

  // ---------------------------------------------------------------------------------------------
  // Which payloads and policies a second pass leaves alone
  // ---------------------------------------------------------------------------------------------

  /** A walk that differs from its input in numbers at most does not differ at all. */
  lemma {:induction false} WalkKeepsNumbers(c: Context, path: string, v: Json)
    requires Faithful(c) && Renumbered(Walk(c, path, v).value, v)
    ensures Fixed(c, path, v)
    decreases v
  {
    FixedByMembers(c, path, v);
    match v
    case Arr(items) =>
      forall i | 0 <= i < |items|
        ensures Fixed(c, ItemPath(path, i), items[i])
      {
        ItemAt(c, path, 0, items, i);
        WalkKeepsNumbers(c, ItemPath(path, i), items[i]);
      }
    case Obj(fields) =>
      forall i | 0 <= i < |fields|
        ensures Fixed(c, FieldPath(path, fields[i].key), fields[i].value)
      {
        FieldAt(c, path, fields, i);
        WalkKeepsNumbers(c, FieldPath(path, fields[i].key), fields[i].value);
      }
    case _ =>
  }

  /** Values that differ in numbers at most hold the same secrets. */
  lemma {:induction false} RenumberedSecrets(c: Context, path: string, v: Json, w: Json)
    requires Faithful(c) && Renumbered(v, w)
    ensures Walk(c, path, v).secrets == Walk(c, path, w).secrets
    decreases v, 1
  {
    match v
    case Arr(items) => ItemsSecrets(c, path, 0, items, w.items);
    case Obj(fields) => FieldsSecrets(c, path, fields, w.fields);
    case _ =>
  }

  lemma {:induction false} ItemsSecrets(c: Context, path: string, index: nat, v: seq<Json>, w: seq<Json>)
    requires Faithful(c) && |v| == |w| && forall i | 0 <= i < |v| :: Renumbered(v[i], w[i])
    ensures WalkItems(c, path, index, v).2 == WalkItems(c, path, index, w).2
    decreases v, 0
  {
    if v != [] {
      RenumberedSecrets(c, ItemPath(path, index), v[0], w[0]);
      ItemsSecrets(c, path, index + 1, v[1..], w[1..]);
    }
  }

  lemma {:induction false} FieldsSecrets(c: Context, path: string, v: seq<Field>, w: seq<Field>)
    requires Faithful(c) && |v| == |w|
    requires forall i | 0 <= i < |v| :: v[i].key == w[i].key && Renumbered(v[i].value, w[i].value)
    ensures WalkFields(c, path, v).2 == WalkFields(c, path, w).2
    decreases v, 0
  {
    if v != [] {
      RenumberedSecrets(c, FieldPath(path, v[0].key), v[0].value, w[0].value);
      FieldsSecrets(c, path, v[1..], w[1..]);
    }
  }

  /** Nothing in `v` is blocked. */
  predicate Unblocked(c: Context, path: string, v: Json)
    requires Faithful(c)
  {
    !c.policy.blockOnSecret || Walk(c, path, v).secrets == []
  }

  lemma {:induction false} ItemSecretsEmpty(c: Context, path: string, index: nat, v: seq<Json>, i: nat)
    requires Faithful(c) && i < |v| && WalkItems(c, path, index, v).2 == []
    ensures Walk(c, ItemPath(path, index + i), v[i]).secrets == []
    decreases |v|
  {
    hide Walk, ItemPath;
    BothEmpty(
      Walk(c, ItemPath(path, index), v[0]).secrets, WalkItems(c, path, index + 1, v[1..]).2);
    if i > 0 {
      assert v[1..][i - 1] == v[i];
      ItemSecretsEmpty(c, path, index + 1, v[1..], i - 1);
      var at := index + i;
      assert index + 1 + (i - 1) == at;
    }
  }

  lemma {:induction false} FieldSecretsEmpty(c: Context, path: string, v: seq<Field>, i: nat)
    requires Faithful(c) && i < |v| && WalkFields(c, path, v).2 == []
    ensures Walk(c, FieldPath(path, v[i].key), v[i].value).secrets == []
    decreases |v|
  {
    BothEmpty(
      Walk(c, FieldPath(path, v[0].key), v[0].value).secrets, WalkFields(c, path, v[1..]).2);
    if i > 0 {
      assert v[1..][i - 1] == v[i];
      FieldSecretsEmpty(c, path, v[1..], i - 1);
    }
  }

  lemma ItemUnblocked(c: Context, path: string, v: seq<Json>, i: nat)
    requires Faithful(c) && i < |v| && Unblocked(c, path, Arr(v))
    ensures Unblocked(c, ItemPath(path, i), v[i])
  {
    hide WalkItems, ItemPath, HandleString;
    if c.policy.blockOnSecret {
      ItemSecretsEmpty(c, path, 0, v, i);
      assert 0 + i == i;
    }
  }

  lemma FieldUnblocked(c: Context, path: string, v: seq<Field>, i: nat)
    requires Faithful(c) && i < |v| && Unblocked(c, path, Obj(v))
    ensures Unblocked(c, FieldPath(path, v[i].key), v[i].value)
  {
    if c.policy.blockOnSecret {
      FieldSecretsEmpty(c, path, v, i);
    }
  }

  /** No obfuscated string of at most four characters, inside JSON texts neither. */
  predicate Steady(c: Context, path: string, v: Json)
    requires Faithful(c)
    decreases LongestLeaf(v), v
  {
    match v
    case Str(s) =>
      if RuleAt(c, path).Some? then Obfuscates(c, path) ==> |s| > 4
      else
        TryParseJson(c, s).Some? ==>
          assert ParsesSmaller(c, s);
          Steady(c, FieldPath(path, "~"), TryParseJson(c, s).value)
    case Arr(items) =>
      forall i | 0 <= i < |items| :: LongestItem(items, i); Steady(c, ItemPath(path, i), items[i])
    case Obj(fields) =>
      forall i | 0 <= i < |fields| ::
        LongestField(fields, i); Steady(c, FieldPath(path, fields[i].key), fields[i].value)
    case _ => true
  }

  /** The walk of the content of a JSON text `s` serialises to `s` exactly when it changes nothing. */
  lemma RespelledIff(c: Context, path: string, s: string)
    requires Faithful(c) && TryParseJson(c, s).Some?
    requires c.stringify(TryParseJson(c, s).value) == s
    ensures !Respelled(c, path, s) <==> Fixed(c, FieldPath(path, "~"), TryParseJson(c, s).value)
  {
    NotRespelledIsFixed(c, path, s);
  }

  lemma NotRespelledIsFixed(c: Context, path: string, s: string)
    requires Faithful(c) && TryParseJson(c, s).Some?
    ensures !Respelled(c, path, s) ==> Fixed(c, FieldPath(path, "~"), TryParseJson(c, s).value)
  {
    var inner, p := FieldPath(path, "~"), TryParseJson(c, s).value;
    assert ParsesSmaller(c, s);
    WalkKeepsDefined(c, inner, p);
    assert RoundTrips(c, Walk(c, inner, p).value);
    if !Respelled(c, path, s) {
      WalkKeepsNumbers(c, inner, p);
    }
  }

  /** An unblocked JSON text that no rule governs: its content is unblocked, and it is respelled or left alone. */
  lemma HandledText(c: Context, path: string, s: string)
    requires Faithful(c) && RuleAt(c, path).None? && TryParseJson(c, s).Some? && Unblocked(c, path, Str(s))
    ensures Unblocked(c, FieldPath(path, "~"), TryParseJson(c, s).value)
    ensures var text := c.stringify(Walk(c, FieldPath(path, "~"), TryParseJson(c, s).value).value);
      Walk(c, path, Str(s)).value == Str(if Respelled(c, path, s) then text else s)
    ensures Fixed(c, path, Str(s)) <==> !Respelled(c, path, s)
  {
    var secrets := if SecretSeen(c, path, s) then [if path == "" then "$" else path] else [];
    var walked := Walk(c, FieldPath(path, "~"), TryParseJson(c, s).value);
    assert Walk(c, path, Str(s)) == HandleString(c, path, s);
    if c.policy.blockOnSecret {
      assert secrets == [];
      assert secrets + walked.secrets == walked.secrets;
    }
  }

  lemma ShortChanges(s: string)
    ensures |s| <= 4 ==> Obfuscated(s) != s
  {
    assert |REDACTION_MARKER| == 10;
  }

  lemma {:induction false} FixedIsSteady(c: Context, path: string, v: Json)
    requires Faithful(c) && Fixed(c, path, v) && Unblocked(c, path, v)
    ensures Steady(c, path, v)
    decreases LongestLeaf(v), v
  {
    FixedByMembers(c, path, v);
    match v
    case Str(s) =>
      ShortChanges(s);
      assert Walk(c, path, v) == HandleString(c, path, s);
      assert Obfuscates(c, path) ==> HandleString(c, path, s).value == Str(Obfuscated(s));
      if RuleAt(c, path).None? && TryParseJson(c, s).Some? {
        assert ParsesSmaller(c, s);
        HandledText(c, path, s);
        NotRespelledIsFixed(c, path, s);
        FixedIsSteady(c, FieldPath(path, "~"), TryParseJson(c, s).value);
      }
    case Arr(items) =>
      forall i | 0 <= i < |items|
        ensures Steady(c, ItemPath(path, i), items[i])
      {
        ItemUnblocked(c, path, items, i);
        LongestItem(items, i);
        FixedIsSteady(c, ItemPath(path, i), items[i]);
      }
    case Obj(fields) =>
      forall i | 0 <= i < |fields|
        ensures Steady(c, FieldPath(path, fields[i].key), fields[i].value)
      {
        FieldUnblocked(c, path, fields, i);
        LongestField(fields, i);
        FixedIsSteady(c, FieldPath(path, fields[i].key), fields[i].value);
      }
    case _ =>
  }

  /** A walk leaves its own output alone exactly when no short string was obfuscated. */
  lemma {:induction false} WalkedIsFixedIff(c: Context, path: string, v: Json)
    requires Faithful(c) && Unblocked(c, path, v) && Unblocked(c, path, Walk(c, path, v).value)
    ensures Fixed(c, path, Walk(c, path, v).value) <==> Steady(c, path, v)
    decreases LongestLeaf(v), v, 1
  {
    var out := Walk(c, path, v).value;
    FixedByMembers(c, path, out);
    match v
    case Str(s) => HandledIsFixedIff(c, path, s);
    case Arr(items) =>
      forall i | 0 <= i < |items|
        ensures Fixed(c, ItemPath(path, i), out.items[i]) <==> Steady(c, ItemPath(path, i), items[i])
      {
        ItemAt(c, path, 0, items, i);
        ItemUnblocked(c, path, items, i);
        ItemUnblocked(c, path, out.items, i);
        LongestItem(items, i);
        WalkedIsFixedIff(c, ItemPath(path, i), items[i]);
      }
    case Obj(fields) =>
      forall i | 0 <= i < |fields|
        ensures var inner := FieldPath(path, fields[i].key);
          out.fields[i].key == fields[i].key
          && (Fixed(c, inner, out.fields[i].value) <==> Steady(c, inner, fields[i].value))
      {
        FieldAt(c, path, fields, i);
        FieldUnblocked(c, path, fields, i);
        FieldUnblocked(c, path, out.fields, i);
        LongestField(fields, i);
        WalkedIsFixedIff(c, FieldPath(path, fields[i].key), fields[i].value);
      }
    case _ =>
  }

  lemma {:induction false} HandledIsFixedIff(c: Context, path: string, s: string)
    requires Faithful(c) && Unblocked(c, path, Str(s)) && Unblocked(c, path, Walk(c, path, Str(s)).value)
    ensures Fixed(c, path, Walk(c, path, Str(s)).value) <==> Steady(c, path, Str(s))
    decreases |s|, Str(s), 0
  {
    if RuleAt(c, path).Some? {
      if Obfuscates(c, path) {
        ObfuscatedTwice(s);
      } else {
        TreatedTwice(c, path, s);
      }
    } else if TryParseJson(c, s).Some? {
      if Respelled(c, path, s) {
        RespelledIsFixedIff(c, path, s);
      } else {
        FixedIsSteady(c, path, Str(s));
      }
    }
  }

  lemma {:induction false} RespelledIsFixedIff(c: Context, path: string, s: string)
    requires Faithful(c) && RuleAt(c, path).None? && TryParseJson(c, s).Some? && Respelled(c, path, s)
    requires Unblocked(c, path, Str(s)) && Unblocked(c, path, Walk(c, path, Str(s)).value)
    ensures Fixed(c, path, Walk(c, path, Str(s)).value) <==> Steady(c, path, Str(s))
    decreases |s|, Str(s), -1
  {
    var inner, p := FieldPath(path, "~"), TryParseJson(c, s).value;
    assert ParsesSmaller(c, s);
    HandledText(c, path, s);
    var w := Walk(c, inner, p).value;
    WalkKeepsDefined(c, inner, p);
    assert RoundTrips(c, w);
    var text, q := c.stringify(w), c.parse(c.stringify(w)).value;
    HandledText(c, path, text);
    RespelledIff(c, path, text);
    RenumberedStaysFixed(c, inner, w, q);
    RenumberedSecrets(c, inner, w, q);
    WalkedIsFixedIff(c, inner, p);
  }

  /** A second pass over the output, when it is not blocked, changes nothing. */
  predicate SecondPassStable(c: Context, input: Json)
    requires Faithful(c)
  {
    var first := RedactValue(c, true, input);
    first.Done? ==>
      var second := RedactValue(c, true, first.output);
      second.Done? ==> second.output == first.output
  }

  /** Payload by payload: an unblocked second pass changes nothing exactly when no short string was obfuscated. */
  lemma SecondPassChangesNothingIff(c: Context, input: Json)
    requires Faithful(c) && c.policy.enabled
    requires var first := RedactValue(c, true, input);
      first.Done? && RedactValue(c, true, first.output).Done?
    ensures SecondPassStable(c, input) <==> Steady(c, "", input)
  {
    WalkedIsFixedIff(c, "", input);
  }

  /** Policy by policy: every payload is safe from a second pass exactly when no path is obfuscated. */
  lemma SecondPassIsStableIff(c: Context)
    requires Faithful(c) && c.policy.enabled
    ensures (forall input :: SecondPassStable(c, input)) <==> NeverObfuscates(c)
  {
    if NeverObfuscates(c) {
      forall input
        ensures SecondPassStable(c, input)
      {
        WalkedIsFixed(c, "", input);
      }
    } else {
      var path :| Obfuscates(c, path);
      var input := if path == "" then Str("") else Obj([Field(path, Str(""))]);
      ObfuscatedTwice("");
      EmptyStringChanges(c, path);
      assert !SecondPassStable(c, input);
    }
  }

  /** When no rule and no level of the policy asks for obfuscation, every payload is safe from a second pass. */
  lemma SecondPassIsStable(c: Context, input: Json)
    requires Faithful(c) && c.policy.enabled
    requires forall i :: 0 <= i < |c.rules| ==> c.rules[i].action != Some(Obfuscate)
    requires forall level :: level in c.policy.levelActions ==> c.policy.levelActions[level] != Obfuscate
    ensures SecondPassStable(c, input)
  {
    NobodyAsks(c);
    SecondPassIsStableIff(c);
  }

  lemma EmptyStringChanges(c: Context, path: string)
    requires Faithful(c) && c.policy.enabled && Obfuscates(c, path)
    ensures !SecondPassStable(c, if path == "" then Str("") else Obj([Field(path, Str(""))]))
  {
    ObfuscatedTwice("");
    if path != "" {
      assert FieldPath("", path) == path;
      OneField(c, path, "");
      OneField(c, path, Obfuscated(""));
    }
  }

  lemma OneField(c: Context, key: string, s: string)
    requires Faithful(c) && key != "" && RuleAt(c, key).Some?
    ensures var o := Walk(c, "", Obj([Field(key, Str(s))]));
      o.value == Obj([Field(key, HandleString(c, key, s).value)]) && o.secrets == []
  {
    var fields := [Field(key, Str(s))];
    assert fields[1..] == [] && FieldPath("", key) == key;
    var first := Walk(c, key, Str(s));
    assert first == HandleString(c, key, s) && first.secrets == [];
    var rest := WalkFields(c, "", fields[1..]);
    var o := WalkFields(c, "", fields);
    assert rest == ([], [], []);
    assert o.0 == [Field(key, first.value)] + rest.0 && o.2 == first.secrets + rest.2;
  }
}
