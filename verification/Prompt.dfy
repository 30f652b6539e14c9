/**
 Placeholder substitution in prompts (prompt_resolver.go): four regular-expression passes over a string. Values are
 the strings the program prints for them.
 */
module Prompt {
  import opened Rows

  datatype Kind = Secrets | Env | Webhook | State

  /** A stored secret, after decryption. */
  datatype Secret = Clear(text: string) | Undecryptable

  /** `webhook` and `state` are None when there is no payload, or no readable state. */
  datatype Context = Context(
    secrets: map<string, Secret>,
    env: map<string, string>,
    webhook: Option<map<string, string>>,
    state: Option<map<string, string>>)

  function Prefix(kind: Kind): string {
    match kind
    case Secrets => "secrets."
    case Env => "env."
    case Webhook => "webhook.body."
    case State => "state."
  }

  predicate IsNameChar(kind: Kind, c: char) {
    'a' <= c <= 'z' || 'A' <= c <= 'Z' || '0' <= c <= '9' || c == '_' || c == '-' || (kind == State && c == '.')
  }

  predicate IsName(kind: Kind, name: string) {
    name != "" && forall k :: 0 <= k < |name| ==> IsNameChar(kind, name[k])
  }

  function SecretText(ctx: Context, name: string): string {
    if name !in ctx.secrets then "[SECRET " + name + " NOT FOUND]"
    else match ctx.secrets[name]
      case Clear(text) => text
      case Undecryptable => "[DECRYPTION ERROR]"
  }

  function Lookup(values: Option<map<string, string>>, name: string): Option<string> {
    if values.Some? && name in values.value then Some(values.value[name]) else None
  }

  /** Every secret name has a text; other names may be unknown. */
  function Value(ctx: Context, kind: Kind, name: string): Option<string> {
    match kind
    case Secrets => Some(SecretText(ctx, name))
    case Env => Lookup(Some(ctx.env), name)
    case Webhook => Lookup(ctx.webhook, name)
    case State => Lookup(ctx.state, name)
  }

  // ----- One pass: the leftmost matches of {{prefix NAME}}, from left to right -----

  function NameLength(kind: Kind, s: string): (n: nat)
    ensures n <= |s| && (forall k :: 0 <= k < n ==> IsNameChar(kind, s[k]))
    ensures n < |s| ==> !IsNameChar(kind, s[n])
  {
    if s == [] || !IsNameChar(kind, s[0]) then 0 else 1 + NameLength(kind, s[1..])
  }

  predicate StartsWith(s: string, p: string) {
    |p| <= |s| && forall k :: 0 <= k < |p| ==> s[k] == p[k]
  }

  function Opening(kind: Kind): string {
    "{{" + Prefix(kind)
  }

  /** The name in a match at the start of `s`. */
  function MatchAt(kind: Kind, s: string): Option<string> {
    if !StartsWith(s, Opening(kind)) then None
    else
      var rest := s[|Opening(kind)|..];
      var n := NameLength(kind, rest);
      if n > 0 && StartsWith(rest[n..], "}}") then Some(rest[..n]) else None
  }

  function Matched(kind: Kind, name: string): string {
    Opening(kind) + name + "}}"
  }

  function Replacement(ctx: Context, kind: Kind, name: string): string {
    var v := Value(ctx, kind, name);
    if v.Some? then v.value else Matched(kind, name)
  }

  lemma MatchStarts(kind: Kind, s: string)
    ensures MatchAt(kind, s).Some? ==> StartsWith(s, Matched(kind, MatchAt(kind, s).value))
  {
    if MatchAt(kind, s).Some? {
      var o, name := Opening(kind), MatchAt(kind, s).value;
      var rest := s[|o|..];
      assert rest[..|name|] == name && StartsWith(rest[|name|..], "}}");
      forall k | 0 <= k < |Matched(kind, name)|
        ensures |Matched(kind, name)| <= |s| && s[k] == Matched(kind, name)[k]
      {
        if |o| <= k {
          assert s[k] == rest[k - |o|];
          if |o| + |name| <= k { assert rest[k - |o|] == rest[|name|..][k - |o| - |name|]; }
        }
      }
    }
  }

  function Pass(ctx: Context, kind: Kind, s: string): string
    decreases |s|
  {
    if s == [] then []
    else
      var m := MatchAt(kind, s);
      MatchStarts(kind, s);
      if m.Some? then Replacement(ctx, kind, m.value) + Pass(ctx, kind, s[|Matched(kind, m.value)|..])
      else [s[0]] + Pass(ctx, kind, s[1..])
  }

  function Passes(ctx: Context, order: seq<Kind>, s: string): string {
    if order == [] then s else Pass(ctx, order[|order| - 1], Passes(ctx, order[..|order| - 1], s))
  }

  // ----- The reference: substitution on a prompt cut into literals and placeholders -----

  datatype Part = Lit(text: string) | Tag(body: string)

  function Show(p: Part): string {
    match p
    case Lit(text) => text
    case Tag(body) => "{{" + body + "}}"
  }

  function Render(parts: seq<Part>): string {
    if parts == [] then [] else Show(parts[0]) + Render(parts[1..])
  }

  predicate Braceless(s: string) {
    '{' !in s && '}' !in s
  }

  predicate PlainPart(p: Part) {
    match p
    case Lit(text) => Braceless(text)
    case Tag(body) => Braceless(body)
  }

  predicate Plain(parts: seq<Part>) {
    forall k :: 0 <= k < |parts| ==> PlainPart(parts[k])
  }

  /** The placeholder names a value of this kind. */
  predicate Names(kind: Kind, body: string) {
    StartsWith(body, Prefix(kind)) && IsName(kind, body[|Prefix(kind)|..])
  }

  function NameIn(kind: Kind, body: string): string
    requires Names(kind, body)
  {
    body[|Prefix(kind)|..]
  }

  function Filled(ctx: Context, kind: Kind, p: Part): Part {
    if p.Tag? && Names(kind, p.body) then
      var v := Value(ctx, kind, NameIn(kind, p.body));
      if v.Some? then Lit(v.value) else p
    else p
  }

  /** All kinds at once. */
  function Meaning(ctx: Context, p: Part): Part {
    if p.Lit? then p
    else if Names(Secrets, p.body) then Filled(ctx, Secrets, p)
    else if Names(Env, p.body) then Filled(ctx, Env, p)
    else if Names(Webhook, p.body) then Filled(ctx, Webhook, p)
    else Filled(ctx, State, p)
  }

  function FillAll(ctx: Context, kind: Kind, parts: seq<Part>): (r: seq<Part>)
    ensures |r| == |parts| && forall k :: 0 <= k < |r| ==> r[k] == Filled(ctx, kind, parts[k])
  {
    seq(|parts|, k requires 0 <= k < |parts| => Filled(ctx, kind, parts[k]))
  }

  function Meanings(ctx: Context, parts: seq<Part>): (r: seq<Part>)
    ensures |r| == |parts| && forall k :: 0 <= k < |r| ==> r[k] == Meaning(ctx, parts[k])
  {
    seq(|parts|, k requires 0 <= k < |parts| => Meaning(ctx, parts[k]))
  }

  /** No value that could be substituted holds a brace. */
  ghost predicate PlainValues(ctx: Context) {
    forall kind, name :: IsName(kind, name) && Value(ctx, kind, name).Some? ==> Braceless(Value(ctx, kind, name).value)
  }

  // ----- A pass is a substitution on the parts -----

  lemma Regroup(a: string, b: string, c: string)
    ensures a + (b + c) == a + b + c
  {
  }

  /** A match starts with two braces. */
  lemma NoMatch(kind: Kind, s: string)
    requires |s| < 2 || s[0] != '{' || s[1] != '{'
    ensures MatchAt(kind, s) == None
  {
    assert Opening(kind)[0] == '{' && Opening(kind)[1] == '{';
  }

  lemma PassStep(ctx: Context, kind: Kind, s: string, rest: string)
    requires s != "" && MatchAt(kind, s) == None && s[1..] == rest
    ensures Pass(ctx, kind, s) == [s[0]] + Pass(ctx, kind, rest)
  {
  }

  lemma PassSkipsOne(ctx: Context, kind: Kind, c: char, rest: string)
    requires c != '{'
    ensures Pass(ctx, kind, [c] + rest) == [c] + Pass(ctx, kind, rest)
  {
    NoMatch(kind, [c] + rest);
    PassStep(ctx, kind, [c] + rest, rest);
  }

  lemma {:induction false} PassSkips(ctx: Context, kind: Kind, text: string, rest: string)
    requires '{' !in text
    ensures Pass(ctx, kind, text + rest) == text + Pass(ctx, kind, rest)
  {
    if text == [] {
      assert text + rest == rest;
    } else {
      var c, tail := text[0], text[1..];
      assert c in text && text == [c] + tail;
      PassSkips(ctx, kind, tail, rest);
      PassSkipsOne(ctx, kind, c, tail + rest);
      Regroup([c], tail, rest);
      Regroup([c], tail, Pass(ctx, kind, rest));
    }
  }

  lemma {:induction false} NameLengthIs(kind: Kind, name: string, rest: string)
    requires forall k :: 0 <= k < |name| ==> IsNameChar(kind, name[k])
    requires rest != "" && !IsNameChar(kind, rest[0])
    ensures NameLength(kind, name + rest) == |name|
  {
    if name == [] {
      assert name + rest == rest;
    } else {
      assert (name + rest)[1..] == name[1..] + rest;
      NameLengthIs(kind, name[1..], rest);
    }
  }

  lemma AfterOpening(kind: Kind, tail: string)
    ensures StartsWith(Opening(kind) + tail, Opening(kind)) && (Opening(kind) + tail)[|Opening(kind)|..] == tail
  {
  }

  lemma MatchedShape(kind: Kind, name: string, rest: string)
    ensures Matched(kind, name) + rest == Opening(kind) + (name + ("}}" + rest))
  {
  }

  lemma NameThenBraces(kind: Kind, name: string, rest: string)
    requires IsName(kind, name)
    ensures var s := name + ("}}" + rest);
            NameLength(kind, s) == |name| && s[|name|..] == "}}" + rest && s[..|name|] == name
  {
    NameLengthIs(kind, name, "}}" + rest);
  }

  lemma MatchesNamed(kind: Kind, name: string, rest: string)
    requires IsName(kind, name)
    ensures MatchAt(kind, Matched(kind, name) + rest) == Some(name)
  {
    MatchedShape(kind, name, rest);
    AfterOpening(kind, name + ("}}" + rest));
    NameThenBraces(kind, name, rest);
  }

  lemma PrefixBraceless(kind: Kind)
    ensures Braceless(Prefix(kind)) && forall k :: 0 <= k < |Prefix(kind)| ==> Prefix(kind)[k] != '}'
  {
  }

  lemma PrefixFits(kind: Kind, body: string, rest: string)
    requires Braceless(body) && StartsWith(body + "}}" + rest, Prefix(kind))
    ensures StartsWith(body, Prefix(kind))
  {
    var s := body + "}}" + rest;
    PrefixBraceless(kind);
    assert s[|body|] == '}';
    assert forall k :: 0 <= k < |body| ==> body[k] == s[k];
  }

  /** The run of name characters before "}}" is all there is before the first closing brace. */
  lemma NameFills(kind: Kind, name: string, rest: string)
    requires '}' !in name
    requires var n := NameLength(kind, name + "}}" + rest); n > 0 && StartsWith((name + "}}" + rest)[n..], "}}")
    ensures IsName(kind, name)
  {
    var s := name + "}}" + rest;
    var n := NameLength(kind, s);
    assert s[n] == s[n..][0] == '}';
    assert forall k :: 0 <= k < |name| ==> s[k] == name[k] && name[k] in name;
    assert s[|name|] == '}' && !IsNameChar(kind, '}');
    assert n == |name|;
  }

  lemma OpeningThenPrefix(kind: Kind, tail: string)
    requires StartsWith("{{" + tail, Opening(kind))
    ensures StartsWith(tail, Prefix(kind))
  {
    assert forall k :: 0 <= k < |Prefix(kind)| ==> tail[k] == ("{{" + tail)[k + 2] && Opening(kind)[k + 2] == Prefix(kind)[k];
  }

  lemma TagTail(body: string, rest: string)
    ensures "{{" + body + "}}" + rest == "{{" + (body + "}}" + rest)
  {
  }

  lemma MatchHasPrefix(kind: Kind, body: string, rest: string)
    requires Braceless(body) && MatchAt(kind, "{{" + body + "}}" + rest).Some?
    ensures StartsWith(body, Prefix(kind))
  {
    TagTail(body, rest);
    OpeningThenPrefix(kind, body + "}}" + rest);
    PrefixFits(kind, body, rest);
  }

  lemma PrefixedShape(kind: Kind, name: string, rest: string)
    ensures "{{" + (Prefix(kind) + name) + "}}" + rest == Opening(kind) + (name + "}}" + rest)
  {
    var p := Prefix(kind);
    assert "{{" + (p + name) == "{{" + p + name;
    Regroup("{{" + p, name, "}}" + rest);
    assert name + ("}}" + rest) == name + "}}" + rest;
    assert "{{" + p + name + ("}}" + rest) == "{{" + p + name + "}}" + rest;
  }

  lemma MatchAfterOpening(kind: Kind, tail: string)
    requires MatchAt(kind, Opening(kind) + tail).Some?
    ensures var n := NameLength(kind, tail); n > 0 && StartsWith(tail[n..], "}}")
  {
    AfterOpening(kind, tail);
  }

  lemma NameAfterOpening(kind: Kind, s: string, name: string, rest: string)
    requires '}' !in name && s == "{{" + (Prefix(kind) + name) + "}}" + rest && MatchAt(kind, s).Some?
    ensures IsName(kind, name)
  {
    PrefixedShape(kind, name, rest);
    MatchAfterOpening(kind, name + "}}" + rest);
    NameFills(kind, name, rest);
  }

  lemma BehindPrefix(kind: Kind, body: string)
    requires StartsWith(body, Prefix(kind))
    ensures body == Prefix(kind) + body[|Prefix(kind)|..]
    ensures '}' !in body ==> '}' !in body[|Prefix(kind)|..]
  {
  }

  lemma MatchIsNamed(kind: Kind, body: string, rest: string)
    requires Braceless(body) && MatchAt(kind, "{{" + body + "}}" + rest).Some?
    ensures Names(kind, body)
  {
    MatchHasPrefix(kind, body, rest);
    BehindPrefix(kind, body);
    NameAfterOpening(kind, "{{" + body + "}}" + rest, body[|Prefix(kind)|..], rest);
  }

  lemma TagUnmatched(kind: Kind, body: string, rest: string)
    requires Braceless(body) && !Names(kind, body)
    ensures MatchAt(kind, "{{" + body + "}}" + rest) == None
  {
    if MatchAt(kind, "{{" + body + "}}" + rest).Some? {
      MatchIsNamed(kind, body, rest);
    }
  }

  lemma HalfTagUnmatched(kind: Kind, body: string, rest: string)
    requires Braceless(body)
    ensures MatchAt(kind, "{" + body + "}}" + rest) == None
  {
    var t := "{" + body + "}}" + rest;
    assert t[1] == if body == "" then '}' else body[0];
    NoMatch(kind, t);
  }

  lemma TagShape(body: string, rest: string)
    ensures "{{" + body + "}}" + rest == "{" + ("{" + (body + "}}" + rest))
    ensures "{" + body + "}}" + rest == "{" + (body + "}}" + rest)
  {
  }

  lemma PassTwoBraces(ctx: Context, kind: Kind, u: string)
    requires MatchAt(kind, "{" + ("{" + u)) == None && MatchAt(kind, "{" + u) == None
    ensures Pass(ctx, kind, "{" + ("{" + u)) == "{" + ("{" + Pass(ctx, kind, u))
  {
    PassStep(ctx, kind, "{" + ("{" + u), "{" + u);
    PassStep(ctx, kind, "{" + u, u);
  }

  /** No match at either brace of a placeholder of another kind. */
  lemma PassLeavesTag(ctx: Context, kind: Kind, body: string, rest: string)
    requires Braceless(body) && !Names(kind, body)
    ensures Pass(ctx, kind, "{{" + body + "}}" + rest) == "{{" + body + "}}" + Pass(ctx, kind, rest)
  {
    TagUnmatched(kind, body, rest);
    HalfTagUnmatched(kind, body, rest);
    TagShape(body, rest);
    PassTwoBraces(ctx, kind, body + "}}" + rest);
    PassSkips(ctx, kind, body + "}}", rest);
    TagShape(body, Pass(ctx, kind, rest));
  }

  lemma PassMatch(ctx: Context, kind: Kind, s: string, name: string, rest: string)
    requires s != "" && MatchAt(kind, s) == Some(name) && StartsWith(s, Matched(kind, name))
    requires s[|Matched(kind, name)|..] == rest
    ensures Pass(ctx, kind, s) == Replacement(ctx, kind, name) + Pass(ctx, kind, rest)
  {
  }

  lemma PassNamed(ctx: Context, kind: Kind, name: string, rest: string)
    requires IsName(kind, name)
    ensures Pass(ctx, kind, Matched(kind, name) + rest) == Replacement(ctx, kind, name) + Pass(ctx, kind, rest)
  {
    var s := Matched(kind, name) + rest;
    MatchesNamed(kind, name, rest);
    MatchStarts(kind, s);
    assert s[|Matched(kind, name)|..] == rest;
    PassMatch(ctx, kind, s, name, rest);
  }

  lemma PassFillsTag(ctx: Context, kind: Kind, body: string, rest: string)
    requires Names(kind, body)
    ensures Pass(ctx, kind, "{{" + body + "}}" + rest) == Show(Filled(ctx, kind, Tag(body))) + Pass(ctx, kind, rest)
  {
    NamedTag(kind, body);
    PassNamed(ctx, kind, NameIn(kind, body), rest);
  }

  lemma NamedTag(kind: Kind, body: string)
    requires Names(kind, body)
    ensures "{{" + body + "}}" == Matched(kind, NameIn(kind, body))
  {
    assert body == Prefix(kind) + NameIn(kind, body);
  }

  lemma PassPart(ctx: Context, kind: Kind, p: Part, rest: string)
    requires PlainPart(p)
    ensures Pass(ctx, kind, Show(p) + rest) == Show(Filled(ctx, kind, p)) + Pass(ctx, kind, rest)
  {
    match p {
      case Lit(text) => PassSkips(ctx, kind, text, rest);
      case Tag(body) =>
        if Names(kind, body) {
          PassFillsTag(ctx, kind, body, rest);
        } else {
          PassLeavesTag(ctx, kind, body, rest);
        }
    }
  }

  lemma {:induction false} PassIsSubstitution(ctx: Context, kind: Kind, parts: seq<Part>)
    requires Plain(parts)
    ensures Pass(ctx, kind, Render(parts)) == Render(FillAll(ctx, kind, parts))
  {
    if parts != [] {
      PassPart(ctx, kind, parts[0], Render(parts[1..]));
      PassIsSubstitution(ctx, kind, parts[1..]);
      assert FillAll(ctx, kind, parts)[1..] == FillAll(ctx, kind, parts[1..]);
    }
  }

  // ----- Any order of passes -----

  /** A placeholder belongs to one kind at most. */
  lemma KindsDiffer(a: Kind, b: Kind, body: string)
    requires Names(a, body) && Names(b, body)
    ensures a == b
  {
    assert Prefix(a)[0] == body[0] == Prefix(b)[0] && Prefix(a)[1] == body[1] == Prefix(b)[1];
  }

  /** Filled for every kind of `order`. */
  function FilledBy(ctx: Context, order: seq<Kind>, p: Part): Part {
    if order == [] then p else Filled(ctx, order[|order| - 1], FilledBy(ctx, order[..|order| - 1], p))
  }

  function FillAllBy(ctx: Context, order: seq<Kind>, parts: seq<Part>): (r: seq<Part>)
    ensures |r| == |parts| && forall k :: 0 <= k < |r| ==> r[k] == FilledBy(ctx, order, parts[k])
  {
    seq(|parts|, k requires 0 <= k < |parts| => FilledBy(ctx, order, parts[k]))
  }

  lemma {:induction false} StaysPlain(ctx: Context, order: seq<Kind>, p: Part)
    requires PlainPart(p) && PlainValues(ctx)
    ensures PlainPart(FilledBy(ctx, order, p))
  {
    if order != [] {
      StaysPlain(ctx, order[..|order| - 1], p);
    }
  }

  lemma {:induction false} PassesSubstitute(ctx: Context, order: seq<Kind>, parts: seq<Part>)
    requires Plain(parts) && PlainValues(ctx)
    ensures Passes(ctx, order, Render(parts)) == Render(FillAllBy(ctx, order, parts))
  {
    if order == [] {
      assert FillAllBy(ctx, order, parts) == parts;
    } else {
      var before, last := order[..|order| - 1], order[|order| - 1];
      PassesSubstitute(ctx, before, parts);
      forall k | 0 <= k < |parts|
        ensures PlainPart(FilledBy(ctx, before, parts[k]))
      {
        StaysPlain(ctx, before, parts[k]);
      }
      PassIsSubstitution(ctx, last, FillAllBy(ctx, before, parts));
      assert FillAll(ctx, last, FillAllBy(ctx, before, parts)) == FillAllBy(ctx, order, parts);
    }
  }

  /** The pass of the placeholder's own kind decides, wherever it comes in the order. */
  lemma {:induction false} OwnKindDecides(ctx: Context, order: seq<Kind>, kind: Kind, body: string)
    requires Names(kind, body)
    ensures FilledBy(ctx, order, Tag(body)) == if kind in order then Filled(ctx, kind, Tag(body)) else Tag(body)
  {
    if order != [] {
      var before, last := order[..|order| - 1], order[|order| - 1];
      OwnKindDecides(ctx, before, kind, body);
      assert order == before + [last];
      if Names(last, body) {
        KindsDiffer(last, kind, body);
      }
    }
  }

  lemma {:induction false} NoKindNoChange(ctx: Context, order: seq<Kind>, p: Part)
    requires p.Tag? ==> forall kind :: !Names(kind, p.body)
    ensures FilledBy(ctx, order, p) == p
  {
    if order != [] {
      NoKindNoChange(ctx, order[..|order| - 1], p);
    }
  }

  predicate Complete(order: seq<Kind>) {
    Secrets in order && Env in order && Webhook in order && State in order
  }

  lemma OrderIsMeaning(ctx: Context, order: seq<Kind>, p: Part)
    requires Complete(order)
    ensures FilledBy(ctx, order, p) == Meaning(ctx, p)
  {
    if p.Tag? && Names(Secrets, p.body) {
      OwnKindDecides(ctx, order, Secrets, p.body);
    } else if p.Tag? && Names(Env, p.body) {
      OwnKindDecides(ctx, order, Env, p.body);
    } else if p.Tag? && Names(Webhook, p.body) {
      OwnKindDecides(ctx, order, Webhook, p.body);
    } else if p.Tag? && Names(State, p.body) {
      OwnKindDecides(ctx, order, State, p.body);
    } else {
      NoKindNoChange(ctx, order, p);
    }
  }

  /** With braces in placeholders only, the passes in any order, each once or more often, are one simultaneous
      substitution. */
  lemma AnyOrderIsSimultaneous(ctx: Context, order: seq<Kind>, parts: seq<Part>)
    requires Complete(order) && Plain(parts) && PlainValues(ctx)
    ensures Passes(ctx, order, Render(parts)) == Render(Meanings(ctx, parts))
  {
    PassesSubstitute(ctx, order, parts);
    forall k | 0 <= k < |parts|
      ensures FilledBy(ctx, order, parts[k]) == Meaning(ctx, parts[k])
    {
      OrderIsMeaning(ctx, order, parts[k]);
    }
    assert FillAllBy(ctx, order, parts) == Meanings(ctx, parts);
  }

  ghost predicate Unknown(ctx: Context, body: string) {
    forall kind :: Names(kind, body) ==> Value(ctx, kind, NameIn(kind, body)) == None
  }

  lemma MeaningOfUnknown(ctx: Context, body: string)
    ensures Meaning(ctx, Tag(body)) == Tag(body) <==> Unknown(ctx, body)
    ensures Names(Secrets, body) ==> Meaning(ctx, Tag(body)) == Lit(SecretText(ctx, NameIn(Secrets, body)))
  {
    forall kind | Names(kind, body)
      ensures Meaning(ctx, Tag(body)) == Filled(ctx, kind, Tag(body))
    {
      OwnKindDecides(ctx, [Secrets, Env, Webhook, State], kind, body);
      OrderIsMeaning(ctx, [Secrets, Env, Webhook, State], Tag(body));
    }
  }

  lemma {:induction false} RenderConcat(a: seq<Part>, b: seq<Part>)
    ensures Render(a + b) == Render(a) + Render(b)
  {
    if a == [] {
      assert a + b == b;
    } else {
      assert (a + b)[1..] == a[1..] + b;
      RenderConcat(a[1..], b);
    }
  }

  lemma RenderAround(a: seq<Part>, p: Part, b: seq<Part>)
    ensures Render(a + [p] + b) == Render(a) + Show(p) + Render(b)
  {
    RenderConcat(a + [p], b);
    RenderConcat(a, [p]);
    assert [p][1..] == [];
    assert Render([p]) == Show(p) + [] == Show(p);
  }

  /** A value holds no brace, so it cannot look like the placeholder it stands for. */
  lemma ShownAsTag(ctx: Context, body: string)
    requires PlainValues(ctx)
    ensures Show(Meaning(ctx, Tag(body))) == Show(Tag(body)) <==> Unknown(ctx, body)
  {
    MeaningOfUnknown(ctx, body);
    if Meaning(ctx, Tag(body)) != Tag(body) {
      StaysBraceless(ctx, body);
      assert Show(Tag(body))[0] == '{';
    }
  }

  lemma StaysBraceless(ctx: Context, body: string)
    requires PlainValues(ctx) && Meaning(ctx, Tag(body)) != Tag(body)
    ensures Meaning(ctx, Tag(body)).Lit? && Braceless(Meaning(ctx, Tag(body)).text)
  {
  }

  lemma MeaningsAround(ctx: Context, before: seq<Part>, p: Part, after: seq<Part>)
    ensures Meanings(ctx, before + [p] + after) == Meanings(ctx, before) + [Meaning(ctx, p)] + Meanings(ctx, after)
  {
  }

  /** Each part of a prompt resolves on its own. */
  lemma PassesAround(ctx: Context, order: seq<Kind>, before: seq<Part>, p: Part, after: seq<Part>)
    requires Complete(order) && PlainValues(ctx) && Plain(before) && PlainPart(p) && Plain(after)
    ensures Passes(ctx, order, Render(before + [p] + after))
            == Passes(ctx, order, Render(before)) + Show(Meaning(ctx, p)) + Passes(ctx, order, Render(after))
  {
    AnyOrderIsSimultaneous(ctx, order, before + [p] + after);
    AnyOrderIsSimultaneous(ctx, order, before);
    AnyOrderIsSimultaneous(ctx, order, after);
    MeaningsAround(ctx, before, p, after);
    RenderAround(Meanings(ctx, before), Meaning(ctx, p), Meanings(ctx, after));
  }

  /** After all passes, in any order, a placeholder anywhere in a prompt still stands there verbatim iff no kind has a
      value for it, and a secret's never does; what is around it resolves on its own. */
  lemma UnknownPlaceholdersSurvive(ctx: Context, order: seq<Kind>, before: seq<Part>, body: string, after: seq<Part>)
    returns (shown: string)
    requires Complete(order) && PlainValues(ctx) && Plain(before) && Braceless(body) && Plain(after)
    ensures Passes(ctx, order, Render(before + [Tag(body)] + after))
            == Passes(ctx, order, Render(before)) + shown + Passes(ctx, order, Render(after))
    ensures shown == "{{" + body + "}}" <==> Unknown(ctx, body)
    ensures Names(Secrets, body) ==> shown == SecretText(ctx, NameIn(Secrets, body))
  {
    shown := Show(Meaning(ctx, Tag(body)));
    PassesAround(ctx, order, before, Tag(body), after);
    ShownAsTag(ctx, body);
    MeaningOfUnknown(ctx, body);
  }

  // ----- A value with braces -----

  /** A value is substituted by its own pass; whether the other pass comes before or after it matters exactly if that pass
      would change the value. */
  lemma OrderMattersIff(ctx: Context, a: Kind, b: Kind, name: string)
    requires a != b && IsName(a, name) && Value(ctx, a, name).Some?
    ensures Passes(ctx, [a, b], Matched(a, name)) == Pass(ctx, b, Value(ctx, a, name).value)
    ensures Passes(ctx, [b, a], Matched(a, name)) == Value(ctx, a, name).value
    ensures Passes(ctx, [a, b], Matched(a, name)) == Passes(ctx, [b, a], Matched(a, name))
            <==> Pass(ctx, b, Value(ctx, a, name).value) == Value(ctx, a, name).value
  {
    var body := Placeholder(a, name);
    if Names(b, body) { KindsDiffer(b, a, body); }
    PassAlone(ctx, a, Tag(body));
    PassAlone(ctx, b, Tag(body));
    TwoPasses(ctx, a, b, Matched(a, name));
    TwoPasses(ctx, b, a, Matched(a, name));
  }

  /** A secret that reads like a placeholder is itself expanded when its pass comes first, and not when it comes last. */
  lemma OrderMattersWithBraces(name: string, key: string, text: string)
    requires IsName(Secrets, name) && IsName(Env, key) && Braceless(text)
    ensures var ctx := Context(map[name := Clear(Matched(Env, key))], map[key := text], None, None);
            && Passes(ctx, [Secrets, Env], Matched(Secrets, name)) == text
            && Passes(ctx, [Env, Secrets], Matched(Secrets, name)) == Matched(Env, key)
  {
    var ctx := Context(map[name := Clear(Matched(Env, key))], map[key := text], None, None);
    var env := Placeholder(Env, key);
    PassAlone(ctx, Env, Tag(env));
    OrderMattersIff(ctx, Secrets, Env, name);
  }

  lemma NamesBraceless(kind: Kind, name: string)
    requires IsName(kind, name)
    ensures Braceless(name)
  {
  }

  lemma BracelessConcat(a: string, b: string)
    requires Braceless(a) && Braceless(b)
    ensures Braceless(a + b)
  {
  }

  lemma NamesItself(kind: Kind, name: string)
    requires IsName(kind, name)
    ensures Names(kind, Prefix(kind) + name) && NameIn(kind, Prefix(kind) + name) == name
  {
    assert (Prefix(kind) + name)[|Prefix(kind)|..] == name;
  }

  lemma Placeholder(kind: Kind, name: string) returns (body: string)
    requires IsName(kind, name)
    ensures Names(kind, body) && NameIn(kind, body) == name && Braceless(body) && Show(Tag(body)) == Matched(kind, name)
  {
    body := Prefix(kind) + name;
    NamesItself(kind, name);
    NamesBraceless(kind, name);
    PrefixBraceless(kind);
    BracelessConcat(Prefix(kind), name);
    assert Opening(kind) + name == "{{" + body;
  }

  lemma TwoPasses(ctx: Context, a: Kind, b: Kind, s: string)
    ensures Passes(ctx, [a, b], s) == Pass(ctx, b, Pass(ctx, a, s))
  {
    assert [a, b][..1] == [a] && [a][..0] == [];
    assert Passes(ctx, [], s) == s;
    assert Passes(ctx, [a], s) == Pass(ctx, a, s);
  }

  lemma PassAlone(ctx: Context, kind: Kind, p: Part)
    requires PlainPart(p)
    ensures Pass(ctx, kind, Show(p)) == Show(Filled(ctx, kind, p))
  {
    PassPart(ctx, kind, p, "");
    assert Show(p) + "" == Show(p) && Show(Filled(ctx, kind, p)) + "" == Show(Filled(ctx, kind, p));
  }

  // ----- Counting secrets -----

  /** The secrets a string mentions. */
  function Mentioned(s: string): set<string>
    decreases |s|
  {
    if s == [] then {}
    else
      var m := MatchAt(Secrets, s);
      MatchStarts(Secrets, s);
      if m.Some? then {m.value} + Mentioned(s[|Matched(Secrets, m.value)|..]) else Mentioned(s[1..])
  }

  function Decryptable(ctx: Context, names: set<string>): set<string> {
    set n | n in names && n in ctx.secrets && ctx.secrets[n].Clear?
  }

  lemma MentionedStep(s: string, rest: string)
    requires s != "" && MatchAt(Secrets, s) == None && s[1..] == rest
    ensures Mentioned(s) == Mentioned(rest)
  {
  }

  lemma {:induction false} MentionedSkips(text: string, rest: string)
    requires '{' !in text
    ensures Mentioned(text + rest) == Mentioned(rest)
  {
    if text == [] {
      assert text + rest == rest;
    } else {
      NoMatch(Secrets, text + rest);
      MentionedStep(text + rest, text[1..] + rest);
      MentionedSkips(text[1..], rest);
    }
  }

  lemma MentionedTag(body: string, rest: string)
    requires Braceless(body)
    ensures Mentioned(Show(Tag(body)) + rest)
            == (if Names(Secrets, body) then {NameIn(Secrets, body)} else {}) + Mentioned(rest)
  {
    var s := "{{" + body + "}}" + rest;
    if Names(Secrets, body) {
      var name := NameIn(Secrets, body);
      NamedTag(Secrets, body);
      MatchesNamed(Secrets, name, rest);
      MatchStarts(Secrets, s);
      assert s[|Matched(Secrets, name)|..] == rest;
      MentionedMatch(s, name, rest);
    } else {
      TagUnmatched(Secrets, body, rest);
      HalfTagUnmatched(Secrets, body, rest);
      TagShape(body, rest);
      MentionedStep(s, "{" + (body + "}}" + rest));
      MentionedStep("{" + (body + "}}" + rest), body + "}}" + rest);
      MentionedSkips(body + "}}", rest);
    }
  }

  /** The secret names among the placeholders. */
  function SecretNames(parts: seq<Part>): set<string> {
    set k | 0 <= k < |parts| && parts[k].Tag? && Names(Secrets, parts[k].body) :: NameIn(Secrets, parts[k].body)
  }

  lemma {:induction false} MentionedAreSecretNames(parts: seq<Part>)
    requires Plain(parts)
    ensures Mentioned(Render(parts)) == SecretNames(parts)
  {
    if parts != [] {
      var rest := parts[1..];
      MentionedAreSecretNames(rest);
      match parts[0] {
        case Lit(text) => MentionedSkips(text, Render(rest));
        case Tag(body) => MentionedTag(body, Render(rest));
      }
      var first := if parts[0].Tag? && Names(Secrets, parts[0].body) then {NameIn(Secrets, parts[0].body)} else {};
      assert SecretNames(parts) == first + SecretNames(rest) by {
        assert forall k :: 0 < k < |parts| ==> parts[k] == rest[k - 1];
        forall n | n in SecretNames(rest)
          ensures n in SecretNames(parts)
        {
          var k :| 0 <= k < |rest| && rest[k].Tag? && Names(Secrets, rest[k].body) && NameIn(Secrets, rest[k].body) == n;
          assert parts[k + 1] == rest[k];
        }
      }
    }
  }

  lemma DecryptableGrows(ctx: Context, names: set<string>, name: string)
    requires name !in names
    ensures |Decryptable(ctx, names + {name})|
            == |Decryptable(ctx, names)| + (if name in ctx.secrets && ctx.secrets[name].Clear? then 1 else 0)
  {
    assert Decryptable(ctx, names + {name})
           == Decryptable(ctx, names) + (if name in ctx.secrets && ctx.secrets[name].Clear? then {name} else {});
  }

  // ----- The resolver -----

  /** One call of the replacement callback: only a name not seen before is fetched, decrypted and counted. */
  method FetchSecret(ctx: Context, name: string, cache: map<string, string>, count: nat)
    returns (value: string, cache': map<string, string>, count': nat)
    requires forall n :: n in cache ==> cache[n] == SecretText(ctx, n)
    requires count == |Decryptable(ctx, cache.Keys)|
    ensures value == SecretText(ctx, name) && cache'.Keys == cache.Keys + {name}
    ensures forall n :: n in cache' ==> cache'[n] == SecretText(ctx, n)
    ensures count' == |Decryptable(ctx, cache'.Keys)|
  {
    cache', count' := cache, count;
    if name in cache {
      return cache[name], cache, count;
    }
    DecryptableGrows(ctx, cache.Keys, name);
    if name !in ctx.secrets {
      value := "[SECRET " + name + " NOT FOUND]";
    } else if ctx.secrets[name].Undecryptable? {
      value := "[DECRYPTION ERROR]";
    } else {
      value := ctx.secrets[name].text;
      count' := count' + 1;
    }
    cache' := cache'[name := value];
    assert cache'.Keys == cache.Keys + {name};
  }

  lemma MentionedMatch(s: string, name: string, rest: string)
    requires s != "" && MatchAt(Secrets, s) == Some(name) && StartsWith(s, Matched(Secrets, name))
    requires s[|Matched(Secrets, name)|..] == rest
    ensures Mentioned(s) == {name} + Mentioned(rest)
  {
  }

  /** The secrets pass with its cache, on any string: the leftmost matches are replaced, and `count` is the number of
      distinct decryptable names. */
  method ResolveSecrets(ctx: Context, prompt: string) returns (resolved: string, count: nat)
    ensures resolved == Pass(ctx, Secrets, prompt)
    ensures count == |Decryptable(ctx, Mentioned(prompt))|
  {
    var cache: map<string, string> := map[];
    var rest := prompt;
    resolved, count := [], 0;
    while rest != []
      invariant resolved + Pass(ctx, Secrets, rest) == Pass(ctx, Secrets, prompt)
      invariant cache.Keys + Mentioned(rest) == Mentioned(prompt)
      invariant forall n :: n in cache ==> cache[n] == SecretText(ctx, n)
      invariant count == |Decryptable(ctx, cache.Keys)|
      decreases |rest|
    {
      var m := MatchAt(Secrets, rest);
      var value, after := [rest[0]], rest[1..];
      if m.Some? {
        MatchStarts(Secrets, rest);
        after := rest[|Matched(Secrets, m.value)|..];
        value, cache, count := FetchSecret(ctx, m.value, cache, count);
        PassMatch(ctx, Secrets, rest, m.value, after);
        MentionedMatch(rest, m.value, after);
      } else {
        PassStep(ctx, Secrets, rest, after);
        MentionedStep(rest, after);
      }
      Regroup(resolved, value, Pass(ctx, Secrets, after));
      resolved, rest := resolved + value, after;
    }
  }

  /** However often each occurs. */
  method CountSecrets(ctx: Context, parts: seq<Part>) returns (count: nat)
    requires Plain(parts)
    ensures count == |Decryptable(ctx, SecretNames(parts))|
  {
    var resolved;
    resolved, count := ResolveSecrets(ctx, Render(parts));
    MentionedAreSecretNames(parts);
  }

  lemma PassesInTurn(ctx: Context, s: string)
    ensures Passes(ctx, [Secrets, Env, Webhook, State], s)
            == Pass(ctx, State, Pass(ctx, Webhook, Pass(ctx, Env, Pass(ctx, Secrets, s))))
  {
    var all, three := [Secrets, Env, Webhook, State], [Secrets, Env, Webhook];
    assert all[..3] == three && three[..2] == [Secrets, Env];
    TwoPasses(ctx, Secrets, Env, s);
  }

  /** The parent's output comes before the prompt, and no placeholder in it is looked at. */
  method ResolvePrompt(ctx: Context, prompt: string, parentOutput: Option<string>)
    returns (resolved: string, count: nat, chained: bool)
    ensures chained == (parentOutput.Some? && parentOutput.value != "")
    ensures var own := Passes(ctx, [Secrets, Env, Webhook, State], prompt);
            resolved == if chained then "Context from previous task:\n" + parentOutput.value + "\n\nYour Prompt:\n" + own
                        else own
    ensures count == |Decryptable(ctx, Mentioned(prompt))|
  {
    resolved, count := ResolveSecrets(ctx, prompt);
    resolved := Pass(ctx, Env, resolved);
    resolved := Pass(ctx, Webhook, resolved);
    resolved := Pass(ctx, State, resolved);
    PassesInTurn(ctx, prompt);
    chained := parentOutput.Some? && parentOutput.value != "";
    if chained {
      resolved := "Context from previous task:\n" + parentOutput.value + "\n\nYour Prompt:\n" + resolved;
    }
  }
}
