// The normal form of one deny rule (internal/permission/tool_grants.go, lines 131 to 212).

module ToolRules {
  import opened Wrappers

  // What normalizing makes of a rule: refused, blank, or its canonical text.
  datatype Canon = Bad | Blank | Rule(text: string)

  const MAX_RULE := 512

  // ----- characters -----

  // The classes and the small form of a character, as package unicode has them.
  datatype Script = Script(space: char -> bool, letter: char -> bool, digit: char -> bool,
                           upper: char -> bool, small: char -> bool, lower: char -> char)

  predicate Word(a: Script, c: char) { a.letter(c) || a.digit(c) }

  predicate Big(c: char) { 'A' <= c <= 'Z' }

  predicate Little(c: char) { 'a' <= c <= 'z' }

  // What is used of these tables: a small form is its own small form, no space is a letter, and ASCII
  // is as usual. A capital need not have a small form.
  predicate Regular(a: Script, c: char) {
    && (Word(a, c) ==> Word(a, a.lower(c)) && a.lower(a.lower(c)) == a.lower(c) && !a.space(c))
    && (c < '\U{80}' ==>
          && a.space(c) == (c in {' ', '\t', '\n', '\r', '\U{B}', '\U{C}'})
          && a.letter(c) == (Big(c) || Little(c)) && a.digit(c) == ('0' <= c <= '9')
          && a.upper(c) == Big(c) && a.small(c) == Little(c)
          && a.lower(c) == if Big(c) then (c as int + 32) as char else c)
  }

  ghost predicate Lawful(a: Script) { forall c :: Regular(a, c) }

  // The length in UTF-8.
  function Width(c: char): nat {
    if c < '\U{80}' then 1 else if c < '\U{800}' then 2 else if c < '\U{10000}' then 3 else 4
  }

  function Size(s: string): nat { if s == "" then 0 else Width(s[0]) + Size(s[1..]) }

  lemma {:induction false} SizeAscii(s: string)
    requires forall i :: 0 <= i < |s| ==> s[i] < '\U{80}'
    ensures Size(s) == |s|
  {
    if s != "" { SizeAscii(s[1..]); }
  }

  // strings.TrimSpace
  function Trimmed(s: string, space: char -> bool): (r: string)
    ensures |r| <= |s| && (r != "" ==> !space(r[0]) && !space(r[|r| - 1]))
  {
    if s == "" then ""
    else if space(s[0]) then Trimmed(s[1..], space)
    else if space(s[|s| - 1]) then Trimmed(s[..|s| - 1], space)
    else s
  }

  lemma TrimmedAlready(s: string, space: char -> bool)
    requires s == "" || (!space(s[0]) && !space(s[|s| - 1]))
    ensures Trimmed(s, space) == s
  {
  }

  function IndexOf(s: string, c: char): (i: nat)
    ensures i <= |s| && (i < |s| ==> s[i] == c) && forall j :: 0 <= j < i ==> s[j] != c
  {
    if s == "" || s[0] == c then 0 else 1 + IndexOf(s[1..], c)
  }

  // ----- names -----

  // A capital behind a small letter or a digit.
  predicate Turns(a: Script, previous: Option<char>, c: char) {
    a.upper(c) && previous.Some? && (a.small(previous.value) || a.digit(previous.value))
  }

  // What one character of a tool name becomes: a letter its small form, behind an underscore where a
  // new word begins.
  function Letter(a: Script, c: char, previous: Option<char>): Option<string> {
    if Word(a, c) then Some((if Turns(a, previous, c) then "_" else "") + [a.lower(c)])
    else if c in {'_', '-', ':', '*'} then Some([c])
    else None
  }

  function Joined(a: Option<string>, b: Option<string>): Option<string> {
    if a.None? || b.None? then None else Some(a.value + b.value)
  }

  function Spelled(a: Script, name: string, previous: Option<char>): Option<string> {
    if name == "" then Some("") else Joined(Letter(a, name[0], previous), Spelled(a, name[1..], Some(name[0])))
  }

  function Underscored(s: string): (r: string)
    ensures |r| == |s| && forall i :: 0 <= i < |s| ==> r[i] == if s[i] == '-' then '_' else s[i]
  {
    seq(|s|, i requires 0 <= i < |s| => if s[i] == '-' then '_' else s[i])
  }

  const ASK := "ask_user_question"
  const AGENT := "agent"

  // canonicalGrantToolNameWithWildcards, wildcards allowed
  function ToolName(a: Script, value: string): string {
    var spelled := Spelled(a, Trimmed(value, a.space), None);
    if spelled.None? then ""
    else
      var name := Underscored(spelled.value);
      if name == ASK then "ask_user" else if name == AGENT then "task" else name
  }

  // ----- rules -----

  // The end of canonicalTemporaryToolRule, from the canonical name on; scoped tells whether a tool
  // takes an argument pattern.
  function Made(name: string, pattern: Option<string>, scoped: (string, string) -> bool): Canon {
    if name == "" then Bad
    else if pattern.None? then Rule(name)
    else if '*' in name || !scoped(name, pattern.value) then Bad
    else if name == "bash" && pattern.value == "*" then Rule(name)
    else Rule(name + "(" + pattern.value + ")")
  }

  // canonicalTemporaryToolRule for deny rules
  function Canonical(value: string, a: Script, scoped: (string, string) -> bool): Canon {
    var v := Trimmed(value, a.space);
    if v == "" then Blank
    else if Size(v) > MAX_RULE || '\0' in v || '\r' in v || '\n' in v then Bad
    else
      var open := IndexOf(v, '(');
      if open == |v| then Made(ToolName(a, v), None, scoped)
      else if open == 0 || v[|v| - 1] != ')' then Bad
      else
        var pattern := v[open + 1..|v| - 1];
        if Trimmed(pattern, a.space) == "" || '(' in pattern || ')' in pattern then Bad
        else Made(ToolName(a, v[..open]), Some(pattern), scoped)
  }

  function Text(name: string, pattern: Option<string>): string {
    if pattern.None? then name else name + "(" + pattern.value + ")"
  }

  // ----- names given again -----

  // A name of small forms: nothing is left to be made small.
  predicate Plain(a: Script, name: string) {
    forall i :: 0 <= i < |name| ==> (Word(a, name[i]) && a.lower(name[i]) == name[i]) || name[i] in {'_', ':', '*'}
  }

  predicate Dashed(a: Script, name: string) {
    forall i :: 0 <= i < |name| ==> (Word(a, name[i]) && a.lower(name[i]) == name[i]) || name[i] in {'_', '-', ':', '*'}
  }

  // Somewhere a capital follows a small letter or a digit; in a plain name it is one without a small form.
  predicate Camel(a: Script, name: string, previous: Option<char>) {
    name != "" && (Turns(a, previous, name[0]) || Camel(a, name[1..], Some(name[0])))
  }

  predicate HasUpper(a: Script, s: string) { exists i :: 0 <= i < |s| && a.upper(s[i]) }

  lemma {:induction false} SpelledIsDashed(a: Script, name: string, previous: Option<char>)
    requires Lawful(a)
    ensures Spelled(a, name, previous).Some? ==> Dashed(a, Spelled(a, name, previous).value)
  {
    if name != "" {
      assert Regular(a, name[0]) && Regular(a, '_');
      SpelledIsDashed(a, name[1..], Some(name[0]));
    }
  }

  lemma AsciiPlain(a: Script, s: string)
    requires Lawful(a) && forall i :: 0 <= i < |s| ==> Little(s[i]) || s[i] == '_'
    ensures Plain(a, s) && !HasUpper(a, s)
  {
    forall i | 0 <= i < |s|
      ensures !a.upper(s[i]) && ((Word(a, s[i]) && a.lower(s[i]) == s[i]) || s[i] == '_')
    {
      assert Regular(a, s[i]);
    }
  }

  lemma NameIsPlain(a: Script, value: string)
    requires Lawful(a)
    ensures Plain(a, ToolName(a, value)) && ToolName(a, value) !in {ASK, AGENT}
  {
    hide Spelled, Trimmed;
    SpelledIsDashed(a, Trimmed(value, a.space), None);
    AsciiPlain(a, "ask_user");
    AsciiPlain(a, "task");
    assert Regular(a, '-');
  }

  lemma LetterPlain(a: Script, c: char, previous: Option<char>)
    requires Lawful(a) && Plain(a, [c])
    ensures Letter(a, c, previous) == Some((if Turns(a, previous, c) then "_" else "") + [c])
  {
    assert [c][0] == c && "" + [c] == [c];
    assert Regular(a, c);
  }

  lemma TurnKept(a: Script, c: char, w: string, previous: Option<char>)
    requires Lawful(a) && Plain(a, [c]) && Plain(a, w) && !Camel(a, w, Some(c)) && Turns(a, previous, c)
    ensures Plain(a, "_" + [c] + w) && !Camel(a, "_" + [c] + w, previous) && HasUpper(a, "_" + [c] + w)
  {
    var s := "_" + [c] + w;
    assert Regular(a, '_') && [c][0] == c;
    assert s[1..] == [c] + w && ([c] + w)[1..] == w && a.upper(s[1]);
  }

  lemma OtherKept(a: Script, c: char, w: string, previous: Option<char>)
    requires Plain(a, [c]) && Plain(a, w) && !Camel(a, w, Some(c)) && !Turns(a, previous, c)
    ensures Plain(a, [c] + w) && !Camel(a, [c] + w, previous) && (HasUpper(a, w) ==> HasUpper(a, [c] + w))
  {
    var s := [c] + w;
    assert [c][0] == c && s[1..] == w;
    if i :| 0 <= i < |w| && a.upper(w[i]) { assert a.upper(s[i + 1]); }
  }

  // Spelling a plain name only puts underscores where words begin, and does it once and for all.
  lemma {:induction false} PlainSpelled(a: Script, n: string, previous: Option<char>)
    requires Lawful(a) && Plain(a, n)
    ensures var s := Spelled(a, n, previous);
      && s.Some? && Plain(a, s.value) && !Camel(a, s.value, previous)
      && (if Camel(a, n, previous) then |s.value| > |n| && HasUpper(a, s.value) else s.value == n)
  {
    hide Lawful, Turns, HasUpper, Letter;
    if n != "" {
      var c, rest := n[0], n[1..];
      PlainSpelled(a, rest, Some(c));
      assert Plain(a, [c]);
      hide Plain;
      var w := Spelled(a, rest, Some(c)).value;
      LetterPlain(a, c, previous);
      if Turns(a, previous, c) { TurnKept(a, c, w, previous); } else { OtherKept(a, c, w, previous); }
      assert n == [c] + rest && "" + [c] + w == [c] + w;
    }
  }

  // A canonical name keeps its form exactly when it has no such capital, and the second form is final.
  lemma NameAgain(a: Script, n: string)
    requires Lawful(a) && Plain(a, n) && n !in {ASK, AGENT}
    ensures var w := ToolName(a, n);
      && Plain(a, w) && w !in {ASK, AGENT} && !Camel(a, w, None) && (w == "" <==> n == "")
      && (if Camel(a, n, None) then |w| > |n| else w == n)
  {
    hide Trimmed, Lawful, Spelled;
    assert n == "" ==> !Camel(a, n, None);
    hide Camel;
    PlainTrimmed(a, n);
    PlainSpelled(a, n, None);
    var s := Spelled(a, n, None).value;
    PlainUnderscored(a, s);
    hide Plain, Underscored;
    AsciiPlain(a, ASK);
    AsciiPlain(a, AGENT);
    hide HasUpper;
  }

  lemma PlainUnderscored(a: Script, s: string)
    requires Lawful(a) && Plain(a, s)
    ensures Underscored(s) == s
  {
    Tables(a, '-');
  }

  lemma PlainTrimmed(a: Script, n: string)
    requires Lawful(a) && Plain(a, n)
    ensures Trimmed(n, a.space) == n
  {
    if n != "" {
      assert Regular(a, n[0]) && Regular(a, n[|n| - 1]);
      TrimmedAlready(n, a.space);
    }
  }

  // The canonical name of a tool is its own canonical name exactly when no capital without a small form
  // follows a small letter or a digit in it; the canonical name of that always is.
  lemma NameIsItsName(a: Script, value: string)
    requires Lawful(a)
    ensures var n := ToolName(a, value);
      && (ToolName(a, n) == n <==> !Camel(a, n, None))
      && ToolName(a, ToolName(a, n)) == ToolName(a, n)
  {
    hide ToolName;
    NameIsPlain(a, value);
    NameAgain(a, ToolName(a, value));
    NameAgain(a, ToolName(a, ToolName(a, value)));
  }

  // ----- rules given again -----

  lemma {:induction false} FoundAt(a: string, c: char, b: string)
    requires c !in a
    ensures IndexOf(a + [c] + b, c) == |a|
  {
    var s := a + [c] + b;
    assert forall j :: 0 <= j < |a| ==> s[j] in a;
    assert s[|a|] == c;
  }

  lemma PlainHasNone(a: Script, name: string)
    requires Lawful(a) && Plain(a, name)
    ensures '(' !in name && ')' !in name && '\0' !in name && '\r' !in name && '\n' !in name
  {
    assert Regular(a, '(') && Regular(a, ')') && Regular(a, '\0') && Regular(a, '\r') && Regular(a, '\n');
  }

  // A pattern that can stand between the parentheses.
  predicate Clean(a: Script, pattern: Option<string>) {
    pattern.Some? ==>
      && Trimmed(pattern.value, a.space) != "" && '(' !in pattern.value && ')' !in pattern.value
      && '\0' !in pattern.value && '\r' !in pattern.value && '\n' !in pattern.value
  }

  // What a canonical text is read as.
  lemma TextRead(name: string, pattern: Option<string>, a: Script, scoped: (string, string) -> bool)
    requires Lawful(a) && Plain(a, name) && name != "" && Clean(a, pattern)
    ensures var text := Text(name, pattern);
      Canonical(text, a, scoped) == if Size(text) > MAX_RULE then Bad else Made(ToolName(a, name), pattern, scoped)
  {
    hide ToolName, Trimmed, Plain, IndexOf, Made, Size, Lawful;
    PlainHasNone(a, name);
    PlainTrimmed(a, name);
    if pattern.Some? { ScopedRead(name, pattern.value, a); }
  }

  lemma ScopedRead(name: string, p: string, a: Script)
    requires Lawful(a) && Plain(a, name) && name != "" && Clean(a, Some(p))
    ensures var text := name + "(" + p + ")";
      && Trimmed(text, a.space) == text && '\0' !in text && '\r' !in text && '\n' !in text
      && IndexOf(text, '(') == |name| && text[..|name|] == name && text[|name| + 1..|text| - 1] == p && text[|text| - 1] == ')'
  {
    hide Trimmed, Plain, IndexOf, Lawful;
    var text := name + "(" + p + ")";
    PlainHasNone(a, name);
    Ends(a, name, text);
    TrimmedAlready(text, a.space);
    assert forall c :: c in text <==> c in name || c == '(' || c in p || c == ')';
    assert text == name + ['('] + (p + ")");
    FoundAt(name, '(', p + ")");
  }

  lemma Ends(a: Script, name: string, text: string)
    requires Lawful(a) && Plain(a, name) && name != "" && text != "" && text[0] == name[0] && text[|text| - 1] == ')'
    ensures !a.space(text[0]) && !a.space(text[|text| - 1])
  {
    assert Regular(a, name[0]) && Regular(a, ')');
  }

  lemma MadeIs(name: string, given: Option<string>, scoped: (string, string) -> bool) returns (pattern: Option<string>)
    requires Made(name, given, scoped).Rule?
    ensures Made(name, given, scoped) == Made(name, pattern, scoped) == Rule(Text(name, pattern))
    ensures pattern.None? || pattern == given
  {
    pattern := if given.Some? && name == "bash" && given.value == "*" then None else given;
  }

  // What a canonical text is made of.
  lemma RuleIs(value: string, a: Script, scoped: (string, string) -> bool) returns (name: string, pattern: Option<string>)
    requires Lawful(a) && Canonical(value, a, scoped).Rule?
    ensures Canonical(value, a, scoped) == Made(name, pattern, scoped) == Rule(Text(name, pattern))
    ensures Plain(a, name) && name != "" && name !in {ASK, AGENT} && Clean(a, pattern)
  {
    hide ToolName, Trimmed, Plain, IndexOf, Size;
    var v := Trimmed(value, a.space);
    var open := IndexOf(v, '(');
    var raw := if open == |v| then v else v[..open];
    NameIsPlain(a, raw);
    name := ToolName(a, raw);
    var given := if open == |v| then None else Some(v[open + 1..|v| - 1]);
    assert Clean(a, given);
    pattern := MadeIs(name, given, scoped);
  }

  // The name in a canonical text.
  function NameIn(text: string): string { text[..IndexOf(text, '(')] }

  // A canonical text is its own canonical form exactly when it has not outgrown the limit, which is
  // applied before underscores come in, and its name keeps its form.
  lemma CanonicalAgain(value: string, a: Script, scoped: (string, string) -> bool)
    requires Lawful(a) && Canonical(value, a, scoped).Rule?
    ensures var r := Canonical(value, a, scoped);
      Canonical(r.text, a, scoped) == r <==> Size(r.text) <= MAX_RULE && !Camel(a, NameIn(r.text), None)
  {
    hide Canonical, ToolName, Plain, Camel, Clean, Size, IndexOf;
    var name, pattern := RuleIs(value, a, scoped);
    TextRead(name, pattern, a, scoped);
    NameAgain(a, name);
    NameStands(name, pattern, a);
  }

  lemma NameStands(name: string, pattern: Option<string>, a: Script)
    requires Lawful(a) && Plain(a, name)
    ensures NameIn(Text(name, pattern)) == name
  {
    PlainHasNone(a, name);
    if pattern.Some? {
      assert Text(name, pattern) == name + ['('] + (pattern.value + ")");
      FoundAt(name, '(', pattern.value + ")");
    }
  }

  // The canonical form of a canonical text, if it is accepted, is its own canonical form, unless it has
  // outgrown the limit and is refused.
  lemma CanonicalSettles(value: string, a: Script, scoped: (string, string) -> bool)
    requires Lawful(a) && Canonical(value, a, scoped).Rule?
    ensures var again := Canonical(Canonical(value, a, scoped).text, a, scoped);
      && !again.Blank?
      && (again.Rule? ==> Canonical(again.text, a, scoped) == if Size(again.text) <= MAX_RULE then again else Bad)
  {
    hide Canonical, ToolName, Plain, Camel, Size, Trimmed;
    var name, pattern := RuleIs(value, a, scoped);
    TextRead(name, pattern, a, scoped);
    NameAgain(a, name);
    var w := ToolName(a, name);
    if Canonical(Text(name, pattern), a, scoped).Rule? {
      var left := MadeIs(w, pattern, scoped);
      TextRead(w, left, a, scoped);
      NameAgain(a, w);
    }
  }

  // ----- which rules are accepted -----

  // The name that a rule gives, before it is made canonical, and its argument pattern.
  predicate Reads(v: string, raw: string, pattern: Option<string>, a: Script) {
    && v == Text(raw, pattern) && '(' !in raw
    && (pattern.Some? ==> raw != "" && '(' !in pattern.value && ')' !in pattern.value && Trimmed(pattern.value, a.space) != "")
  }

  // What a rule of this form comes to: an unknown name, a wildcard with a pattern or a pattern that the
  // tool does not take is refused, and the pattern that takes every command is dropped.
  predicate Takes(name: string, pattern: Option<string>, scoped: (string, string) -> bool, t: string) {
    && name != ""
    && (pattern.Some? ==> '*' !in name && scoped(name, pattern.value))
    && t == if pattern == Some("*") && name == "bash" then "bash" else Text(name, pattern)
  }

  // A rule is blank when nothing but space is given; otherwise it is accepted exactly when it keeps to
  // 512 bytes on one line and is a name alone, or a name with a pattern in parentheses without others.
  lemma AcceptedExactly(value: string, a: Script, scoped: (string, string) -> bool, t: string)
    ensures var v := Trimmed(value, a.space);
      && (Canonical(value, a, scoped).Blank? <==> v == "")
      && (Canonical(value, a, scoped) == Rule(t) <==>
            && v != "" && Size(v) <= 512 && '\0' !in v && '\r' !in v && '\n' !in v
            && exists raw, pattern :: Reads(v, raw, pattern, a) && Takes(ToolName(a, raw), pattern, scoped, t))
  {
    hide ToolName, Trimmed, Size, IndexOf;
    var v := Trimmed(value, a.space);
    var open := IndexOf(v, '(');
    if Canonical(value, a, scoped) == Rule(t) {
      var raw := if open == |v| then v else v[..open];
      var pattern := if open == |v| then None else Some(v[open + 1..|v| - 1]);
      assert pattern.Some? ==> v == raw + "(" + pattern.value + ")";
      assert Reads(v, raw, pattern, a) && Takes(ToolName(a, raw), pattern, scoped, t);
    }
    if v != "" {
      forall raw, pattern | Reads(v, raw, pattern, a) && Takes(ToolName(a, raw), pattern, scoped, t)
        ensures Size(v) <= 512 && '\0' !in v && '\r' !in v && '\n' !in v ==> Canonical(value, a, scoped) == Rule(t)
      {
        ReadsHow(v, raw, pattern, a);
      }
    }
  }

  lemma ReadsHow(v: string, raw: string, pattern: Option<string>, a: Script)
    requires Reads(v, raw, pattern, a)
    ensures IndexOf(v, '(') == |raw|
    ensures pattern.None? ==> v == raw
    ensures pattern.Some? ==> |raw| < |v| - 1 && v[|v| - 1] == ')' && v[..|raw|] == raw && v[|raw| + 1..|v| - 1] == pattern.value && |raw| > 0
  {
    if pattern.Some? {
      assert v == raw + ['('] + (pattern.value + ")");
      FoundAt(raw, '(', pattern.value + ")");
    }
  }

  // An underscore comes in just where a capital follows a small letter or a digit, and every letter
  // takes its small form.
  lemma LetterIs(a: Script, c: char, previous: Option<char>)
    ensures a.letter(c) || a.digit(c) ==>
              Letter(a, c, previous) == Some((if a.upper(c) && previous.Some? && (a.small(previous.value) || a.digit(previous.value))
                                              then "_" else "") + [a.lower(c)])
    ensures !a.letter(c) && !a.digit(c) ==> Letter(a, c, previous) == if c in "_-:*" then Some([c]) else None
  {
  }

  // ----- where it does not -----

  // A rule of exactly the limit whose name gains an underscore.
  function Overlong(): string { "ListDir(" + Argument() + ")" }

  function Argument(): string { seq(503, _ => 'x') }

  lemma Outgrows(a: Script, scoped: (string, string) -> bool)
    requires Lawful(a) && scoped("list_dir", Argument())
    ensures Size(Overlong()) == MAX_RULE
    ensures var r := Canonical(Overlong(), a, scoped);
      r.Rule? && Size(r.text) == MAX_RULE + 1 && Canonical(r.text, a, scoped) == Bad
  {
    hide Trimmed, ToolName, IndexOf, Size, Lawful, Made;
    var p := Argument();
    var v, name := "ListDir(" + p + ")", "list_dir";
    OverlongRead(a, p);
    ListDirIs(a);
    assert v == "ListDir" + "(" + p + ")" && "list_dir(" + p + ")" == Text(name, Some(p));
    assert Made(name, Some(p), scoped) == Rule(Text(name, Some(p))) by { PlainMade(name, p, scoped); }
    AsciiPlain(a, name);
    TextRead(name, Some(p), a, scoped);
  }

  lemma PlainMade(name: string, p: string, scoped: (string, string) -> bool)
    requires name != "" && name != "bash" && '*' !in name && scoped(name, p)
    ensures Made(name, Some(p), scoped) == Rule(Text(name, Some(p)))
  {
  }

  lemma OverlongRead(a: Script, p: string)
    requires Lawful(a) && p == Argument()
    ensures Clean(a, Some(p))
    ensures var v := "ListDir(" + p + ")";
      && Size(v) == MAX_RULE && Size("list_dir(" + p + ")") == MAX_RULE + 1
      && Trimmed(v, a.space) == v && '\0' !in v && '\r' !in v && '\n' !in v
      && IndexOf(v, '(') == 7 && v[..7] == "ListDir" && v[8..|v| - 1] == p && v[|v| - 1] == ')'
  {
    hide Trimmed, IndexOf, Size, Lawful;
    var v := "ListDir(" + p + ")";
    Tables(a, 'L');
    Tables(a, 'x');
    Tables(a, ')');
    TrimmedAlready(v, a.space);
    TrimmedAlready(p, a.space);
    SizeAscii(v);
    SizeAscii("list_dir(" + p + ")");
    assert v == "ListDir" + ['('] + (p + ")");
    FoundAt("ListDir", '(', p + ")");
  }

  lemma Tables(a: Script, c: char)
    requires Lawful(a)
    ensures Regular(a, c)
  {
  }

  lemma SpellsNext(a: Script, c: char, rest: string, previous: Option<char>, more: string)
    requires Word(a, c) && Spelled(a, rest, Some(c)) == Some(more)
    ensures Spelled(a, [c] + rest, previous) == Some((if Turns(a, previous, c) then "_" else "") + [a.lower(c)] + more)
  {
    assert ([c] + rest)[1..] == rest;
  }

  lemma {:induction false} NoCamel(a: Script, s: string, previous: Option<char>)
    requires !HasUpper(a, s)
    ensures !Camel(a, s, previous)
  {
    if s != "" {
      assert forall i :: 0 <= i < |s[1..]| ==> s[1..][i] == s[i + 1];
      NoCamel(a, s[1..], Some(s[0]));
    }
  }

  lemma ListDirIs(a: Script)
    requires Lawful(a)
    ensures ToolName(a, "ListDir") == "list_dir"
  {
    hide Spelled, Trimmed, Joined, Camel;
    assert Regular(a, 'L') && Regular(a, 'i') && Regular(a, 's') && Regular(a, 't') && Regular(a, 'D') && Regular(a, 'r');
    hide Lawful, Regular;
    assert a.lower('L') == 'l' && a.lower('i') == 'i' && a.lower('s') == 's' && a.lower('t') == 't' && a.lower('D') == 'd';
    TrimmedAlready("ListDir", a.space);
    RestOfListDir(a);
    assert ['L'] + "istDir" == "ListDir" && "" + ['l'] + "ist_dir" == "list_dir";
    SpellsNext(a, 'L', "istDir", None, "ist_dir");
    assert Underscored("list_dir") == "list_dir";
  }

  lemma RestOfListDir(a: Script)
    requires Lawful(a)
    ensures Spelled(a, "istDir", Some('L')) == Some("ist_dir")
  {
    hide Spelled, Camel, Joined;
    assert Regular(a, 'i') && Regular(a, 's') && Regular(a, 't') && Regular(a, 'D') && Regular(a, 'r');
    AsciiPlain(a, "ir");
    NoCamel(a, "ir", Some('D'));
    PlainSpelled(a, "ir", Some('D'));
    SpellsNext(a, 'D', "ir", Some('t'), "ir");
    assert ['D'] + "ir" == "Dir" && "_" + ['d'] + "ir" == "_dir";
    SpellsNext(a, 't', "Dir", Some('s'), "_dir");
    assert ['t'] + "Dir" == "tDir" && "" + ['t'] + "_dir" == "t_dir";
    SpellsNext(a, 's', "tDir", Some('i'), "t_dir");
    assert ['s'] + "tDir" == "stDir" && "" + ['s'] + "t_dir" == "st_dir";
    SpellsNext(a, 'i', "stDir", Some('L'), "st_dir");
    assert ['i'] + "stDir" == "istDir" && "" + ['i'] + "st_dir" == "ist_dir";
  }

  // A capital without a small form, such as U+2102, takes its underscore only the second time.
  lemma CapitalUnsettles(a: Script, c: char, scoped: (string, string) -> bool)
    requires Lawful(a) && a.letter(c) && a.upper(c) && a.lower(c) == c
    ensures Canonical(['A', c], a, scoped) == Rule(['a', c])
    ensures Canonical(['a', c], a, scoped) == Rule(['a', '_', c])
  {
    hide Canonical;
    assert Regular(a, 'A') && Regular(a, 'a');
    TwoRead(a, 'A', c, scoped);
    TwoRead(a, 'a', c, scoped);
    assert ['a'] + "" + [c] == ['a', c] && ['a'] + "_" + [c] == ['a', '_', c];
  }

  lemma TwoRead(a: Script, b: char, c: char, scoped: (string, string) -> bool)
    requires Lawful(a) && b in {'A', 'a'} && a.letter(c) && a.upper(c) && a.lower(c) == c
    ensures Canonical([b, c], a, scoped) == Rule(['a'] + (if Turns(a, Some(b), c) then "_" else "") + [c])
  {
    hide Size, Trimmed, Spelled, Lawful;
    Tables(a, b);
    Tables(a, c);
    Tables(a, '(');
    Tables(a, '\0');
    Tables(a, '\r');
    Tables(a, '\n');
    Tables(a, '-');
    SizeTwo(b, c);
    TrimmedAlready([b, c], a.space);
    SpelledTwo(a, b, c);
    var s := ['a'] + (if Turns(a, Some(b), c) then "_" else "") + [c];
    assert Underscored(s) == s;
    assert s[|s| - 1] == c && ASK[|ASK| - 1] == 'n' && AGENT[|AGENT| - 1] == 't';
    Tables(a, 'n');
    Tables(a, 't');
    assert IndexOf([b, c], '(') == 2;
  }

  lemma SizeTwo(b: char, c: char)
    ensures Size([b, c]) <= 8
  {
    assert [b, c][1..] == [c] && [c][1..] == "";
    assert Size([c]) == Width(c) + Size("");
  }

  lemma SpelledTwo(a: Script, b: char, c: char)
    requires Word(a, b) && Word(a, c)
    ensures Spelled(a, [b, c], None) == Some([a.lower(b)] + (if Turns(a, Some(b), c) then "_" else "") + [a.lower(c)])
  {
    assert Spelled(a, "", Some(c)) == Some("");
    assert [c] + "" == [c] && [b] + [c] == [b, c];
    SpellsNext(a, c, "", Some(b), "");
    var more := Spelled(a, [c], Some(b)).value;
    SpellsNext(a, b, [c], None, more);
    assert (if Turns(a, Some(b), c) then "_" else "") + [a.lower(c)] + "" == more;
    assert "" + [a.lower(b)] + more == [a.lower(b)] + (if Turns(a, Some(b), c) then "_" else "") + [a.lower(c)];
  }

  // There are such tables: ASCII and that one capital.
  const STRUCK := '\U{2102}'

  function Sample(): Script {
    Script(c => c in {' ', '\t', '\n', '\r', '\U{B}', '\U{C}'}, c => Big(c) || Little(c) || c == STRUCK, c => '0' <= c <= '9',
           c => Big(c) || c == STRUCK, c => Little(c), c => if Big(c) then (c as int + 32) as char else c)
  }

  lemma SampleIsLawful()
    ensures Lawful(Sample()) && Sample().letter(STRUCK) && Sample().upper(STRUCK) && Sample().lower(STRUCK) == STRUCK
  {
    forall c: char
      ensures Regular(Sample(), c)
    {
    }
  }

  // ----- the loop -----

  // The loop over the letters of a name.
  method SpellName(a: Script, name: string) returns (r: Option<string>)
    ensures r == Spelled(a, name, None)
  {
    var built: string, previous: Option<char> := "", None;
    assert name[0..] == name;
    JoinedNothing(Spelled(a, name, None));
    for i := 0 to |name|
      invariant Spelled(a, name, None) == Joined(Some(built), Spelled(a, name[i..], previous))
    {
      var c := name[i];
      assert name[i..][1..] == name[i + 1..];
      ghost var before := built;
      if a.letter(c) || a.digit(c) {
        if a.upper(c) && previous.Some? && (a.small(previous.value) || a.digit(previous.value)) { built := built + ['_']; }
        built := built + [a.lower(c)];
      } else if c in {'_', '-', ':', '*'} {
        built := built + [c];
      } else {
        return None;
      }
      assert built == before + Letter(a, c, previous).value;
      JoinedTwice(before, Letter(a, c, previous), Spelled(a, name[i + 1..], Some(c)));
      previous := Some(c);
    }
    JoinedNothing(Some(built));
    r := Some(built);
  }

  lemma JoinedNothing(a: Option<string>)
    ensures Joined(Some(""), a) == a == Joined(a, Some(""))
  {
    if a.Some? { assert "" + a.value == a.value == a.value + ""; }
  }

  lemma JoinedTwice(a: string, b: Option<string>, c: Option<string>)
    requires b.Some?
    ensures Joined(Some(a), Joined(b, c)) == Joined(Some(a + b.value), c)
  {
    if c.Some? { assert a + (b.value + c.value) == a + b.value + c.value; }
  }
}
