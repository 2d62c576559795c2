/** Every text that is a link value (internal/tams/pagination.go:226-323, 370-414; section 3 of RFC 8288): what
    may stand between the target and the end of the text, with any blanks, unquoted values and escapes. The
    scanner accepts exactly these texts and finds in each what it spells. */
module LinkGrammar {
  import opened Text
  import opened LinkSyntax
  import opened LinkHeader

  // Inside quotes a character stands for itself or follows a backslash.
  datatype Unit = Plain(c: char) | Pair(c: char)

  datatype Spelled = Bare(text: string) | InQuotes(units: seq<Unit>)

  // The blanks before the equals sign and after it, and the value.
  datatype Assigned = Assigned(before: string, after: string, spelled: Spelled)

  // The blanks before the semicolon and after it, the name, and its value if there is one.
  datatype Item = Item(before: string, after: string, name: string, value: Option<Assigned>)

  datatype Source = Source(target: string, items: seq<Item>, tail: string)

  // ---------- The text ----------

  function UnitText(u: Unit): string { match u case Plain(c) => [c] case Pair(c) => ['\\', c] }

  function UnitsText(units: seq<Unit>): string { if units == [] then "" else UnitText(units[0]) + UnitsText(units[1..]) }

  function ValueText(v: Spelled): string { match v case Bare(text) => text case InQuotes(units) => "\"" + (UnitsText(units) + "\"") }

  function AssignedText(a: Option<Assigned>): string {
    match a
    case None => ""
    case Some(a) => a.before + ("=" + (a.after + ValueText(a.spelled)))
  }

  function ItemText(i: Item): string { i.before + (";" + (i.after + (i.name + AssignedText(i.value)))) }

  function ItemsText(items: seq<Item>, tail: string): string {
    if items == [] then tail else ItemText(items[0]) + ItemsText(items[1..], tail)
  }

  function SourceText(s: Source): string { "<" + s.target + ">" + ItemsText(s.items, s.tail) }

  // ---------- Which texts ----------

  predicate Blanks(s: string) { forall k :: 0 <= k < |s| ==> IsBlank(s[k]) }

  predicate UnitOk(u: Unit) {
    match u
    case Plain(c) => IsQuotable(c) && c != '"' && c != '\\'
    case Pair(c) => !IsBreak(c)
  }

  // An unquoted value is one word, but relation types may be several with spaces between them.
  predicate BareOk(name: string, text: string) {
    && text != ""
    && if EqualFold(name, "rel")
       then text[0] != ' ' && text[|text| - 1] != ' ' && forall k :: 0 <= k < |text| ==> IsPTokenChar(text[k]) || text[k] == ' '
       else forall k :: 0 <= k < |text| ==> IsPTokenChar(text[k])
  }

  predicate ValueFits(name: string, v: Spelled) {
    match v
    case Bare(text) => BareOk(name, text)
    case InQuotes(units) => forall k :: 0 <= k < |units| ==> UnitOk(units[k])
  }

  predicate NameOk(name: string) { name != "" && forall k :: 0 <= k < |name| ==> IsTokenChar(name[k]) }

  predicate AssignedOk(name: string, a: Option<Assigned>) {
    a.Some? ==> Blanks(a.value.before) && Blanks(a.value.after) && ValueFits(name, a.value.spelled)
  }

  predicate ItemOk(i: Item) { Blanks(i.before) && Blanks(i.after) && NameOk(i.name) && AssignedOk(i.name, i.value) }

  predicate SourceOk(s: Source) { '>' !in s.target && Blanks(s.tail) && forall k :: 0 <= k < |s.items| ==> ItemOk(s.items[k]) }

  // ---------- What it says ----------

  function Letters(units: seq<Unit>): string { if units == [] then "" else [units[0].c] + Letters(units[1..]) }

  function Saying(v: Spelled): string { match v case Bare(text) => text case InQuotes(units) => Letters(units) }

  function Said(a: Option<Assigned>): Option<string> { if a.Some? then Some(Saying(a.value.spelled)) else None }

  function Parameters(items: seq<Item>): seq<Parameter> {
    if items == [] then []
    else [Parameter(items[0].name, if items[0].value.Some? then Some(Quoted(Saying(items[0].value.value.spelled))) else None)] + Parameters(items[1..])
  }

  function Reading(s: Source): Link { Link(s.target, Parameters(s.items)) }

  // ---------- Blanks and words ----------

  lemma {:induction false} TrimOver(b: string, s: string)
    requires Blanks(b)
    ensures TrimBlanks(b + s) == TrimBlanks(s)
  {
    if b != "" {
      assert (b + s)[1..] == b[1..] + s;
      TrimOver(b[1..], s);
    } else {
      assert b + s == s;
    }
  }

  lemma {:induction false} TrimTo(b: string, s: string)
    requires Blanks(b) && (s == "" || !IsBlank(s[0]))
    ensures TrimBlanks(b + s) == s
  {
    TrimOver(b, s);
  }

  lemma {:induction false} TrimCuts(s: string) returns (b: string)
    ensures Blanks(b) && s == b + TrimBlanks(s) && TrimBlanks(TrimBlanks(s)) == TrimBlanks(s)
  {
    if s != "" && IsBlank(s[0]) {
      b := TrimCuts(s[1..]);
      assert s == [s[0]] + s[1..];
      b := [s[0]] + b;
    } else {
      b := "";
    }
  }

  lemma {:induction false} TokenPart(s: string)
    ensures forall k :: 0 <= k < TokenLength(s) ==> IsTokenChar(s[k])
  {
    if s != "" && IsTokenChar(s[0]) {
      TokenPart(s[1..]);
    }
  }

  lemma {:induction false} PTokenPart(s: string)
    ensures forall k :: 0 <= k < PTokenLength(s) ==> IsPTokenChar(s[k])
    ensures PTokenLength(s) < |s| ==> !IsPTokenChar(s[PTokenLength(s)])
  {
    if s != "" && IsPTokenChar(s[0]) {
      PTokenPart(s[1..]);
    }
  }

  // ---------- Quoted values ----------

  lemma {:induction false} UnitsRead(units: seq<Unit>, rest: string)
    requires forall k :: 0 <= k < |units| ==> UnitOk(units[k])
    ensures ConsumeQuoted(UnitsText(units) + ("\"" + rest)) == Some((Letters(units), rest))
  {
    var s := UnitsText(units) + ("\"" + rest);
    if units == [] {
      assert s == "\"" + rest;
    } else {
      var tail := UnitsText(units[1..]) + ("\"" + rest);
      UnitsRead(units[1..], rest);
      assert s == UnitText(units[0]) + tail;
      assert UnitOk(units[0]);
      match units[0]
      case Plain(c) => assert s[1..] == tail;
      case Pair(c) => assert s[2..] == tail;
    }
  }

  lemma {:induction false} UnitsFound(s: string) returns (units: seq<Unit>)
    requires ConsumeQuoted(s).Some?
    ensures forall k :: 0 <= k < |units| ==> UnitOk(units[k])
    ensures ConsumeQuoted(s).value.0 == Letters(units) && s == UnitsText(units) + ("\"" + ConsumeQuoted(s).value.1)
  {
    if s[0] == '"' {
      units := [];
      assert s == "" + (['"'] + s[1..]);
    } else if s[0] == '\\' {
      var more := UnitsFound(s[2..]);
      units := [Pair(s[1])] + more;
      assert units[1..] == more && s == ['\\', s[1]] + s[2..];
    } else {
      var more := UnitsFound(s[1..]);
      units := [Plain(s[0])] + more;
      assert units[1..] == more && s == [s[0]] + s[1..];
    }
  }

  // ---------- Unquoted values ----------

  // What may follow a parameter.
  predicate Follows(rest: string) { TrimBlanks(rest) == "" || TrimBlanks(rest)[0] == ';' }

  lemma {:induction false} FollowsEnd(rest: string)
    requires Follows(rest)
    ensures rest == "" || IsBlank(rest[0]) || rest[0] == ';'
  {
  }

  lemma {:induction false} BlankRun(s: string)
    ensures TrimBlanks(s) == s[BlankLength(s)..] && forall k :: 0 <= k < BlankLength(s) ==> IsBlank(s[k])
    ensures BlankLength(s) < |s| ==> !IsBlank(s[BlankLength(s)])
  {
    if s != "" && IsBlank(s[0]) {
      BlankRun(s[1..]);
    }
  }

  lemma {:induction false} BlankBack(b: string, s: string)
    requires Blanks(b) && (s == "" || !IsBlank(s[0]))
    ensures BlankLength(b + s) == |b|
  {
    if b != "" {
      assert (b + s)[1..] == b[1..] + s;
      BlankBack(b[1..], s);
    } else {
      assert b + s == s;
    }
  }

  // The last relation type, and what follows the parameter.
  lemma {:induction false} LastRelation(text: string, rest: string)
    requires text != "" && Follows(rest) && forall k :: 0 <= k < |text| ==> IsPTokenChar(text[k])
    ensures ConsumeRelations(text + rest) == Some((text, rest))
  {
    var s, n := text + rest, |text|;
    FollowsEnd(rest);
    PTokenBack(text, rest);
    assert s[..n] == text && s[n..] == rest;
    BlankRun(rest);
    if rest != "" && rest[0] != ';' && BlankLength(rest) < |rest| {
      assert s[n + BlankLength(rest)] == TrimBlanks(rest)[0];
    }
  }

  // A relation type that ends before position n, the spaces up to next, and more of them.
  lemma {:induction false} RelationsOn(s: string, n: nat, next: nat)
    requires 0 < n < next < |s| && PTokenLength(s) == n && BlankLength(s[n..]) == next - n
    requires s[n] == ' ' && s[next] != ';' && '\t' !in s[n..next]
    ensures ConsumeRelations(s) == match ConsumeRelations(s[next..]) case None => None case Some(r) => Some((s[..next] + r.0, r.1))
  {
    var found := n + BlankLength(s[n..]);
    assert found == next;
    var more := ConsumeRelations(s[found..]);
    assert ConsumeRelations(s) == match more case None => None case Some(r) => Some((s[..found] + r.0, r.1));
  }

  lemma {:induction false} RunEnds(text: string, n: nat) returns (next: nat)
    requires n < |text| && text[n] == ' ' && text[|text| - 1] != ' ' && forall k :: n <= k < |text| ==> IsPTokenChar(text[k]) || text[k] == ' '
    ensures n < next < |text| && IsPTokenChar(text[next]) && BlankLength(text[n..]) == next - n && forall k :: n <= k < next ==> text[k] == ' '
  {
    var tail := text[n..];
    BlankRun(tail);
    next := n + BlankLength(tail);
    assert forall k :: n <= k < |text| ==> text[k] == tail[k - n];
  }

  lemma {:induction false} RelationsRead(text: string, rest: string)
    requires BareOk("rel", text) && Follows(rest)
    ensures ConsumeRelations(text + rest) == Some((text, rest))
    decreases |text|
  {
    var n := PTokenLength(text);
    PTokenPart(text);
    if n == |text| {
      LastRelation(text, rest);
    } else {
      var next := RunEnds(text, n);
      RelationsRead(text[next..], rest);
      FirstRelation(text, n, next, rest);
    }
  }

  lemma {:induction false} Positions(text: string, n: nat, next: nat, rest: string)
    requires 0 < n < next < |text| && PTokenLength(text) == n && IsPTokenChar(text[next]) && forall k :: n <= k < next ==> text[k] == ' '
    ensures var s := text + rest;
      && PTokenLength(s) == n && BlankLength(s[n..]) == next - n && '\t' !in s[n..next]
      && s[next..] == text[next..] + rest && s[..next] + text[next..] == text
  {
    var s := text + rest;
    PTokenPart(text);
    assert s == text[..n] + s[n..];
    PTokenBack(text[..n], s[n..]);
    assert s[n..] == text[n..next] + s[next..];
    BlankBack(text[n..next], s[next..]);
    assert s[next..] == text[next..] + rest && s[n..next] == text[n..next];
    assert s[..next] + text[next..] == text;
  }

  lemma {:induction false} FirstRelation(text: string, n: nat, next: nat, rest: string)
    requires 0 < n < next < |text| && PTokenLength(text) == n && IsPTokenChar(text[next]) && forall k :: n <= k < next ==> text[k] == ' '
    requires ConsumeRelations(text[next..] + rest) == Some((text[next..], rest))
    ensures ConsumeRelations(text + rest) == Some((text, rest))
  {
    Positions(text, n, next, rest);
    RelationsOn(text + rest, n, next);
  }

  lemma {:induction false} RelationsFound(s: string)
    requires ConsumeRelations(s).Some?
    ensures var (text, rest) := ConsumeRelations(s).value; BareOk("rel", text) && s == text + rest
    decreases |s|
  {
    var n := PTokenLength(s);
    PTokenPart(s);
    if n < |s| && IsBlank(s[n]) && ConsumeRelations(s).value.0 != s[..n] {
      var next := n + BlankLength(s[n..]);
      BlankRun(s[n..]);
      RelationsFound(s[next..]);
      SpacesOnly(s, n, next);
      RelationsJoin(s, n, next, ConsumeRelations(s[next..]).value.0, ConsumeRelations(s[next..]).value.1);
    } else {
      assert s == s[..n] + s[n..];
    }
  }

  lemma {:induction false} SpacesOnly(s: string, n: nat, next: nat)
    requires n <= next <= |s| && '\t' !in s[n..next] && forall k :: 0 <= k < next - n ==> IsBlank(s[n..][k])
    ensures forall k :: n <= k < next ==> s[k] == ' '
  {
    forall k | n <= k < next ensures s[k] == ' ' {
      assert s[n..][k - n] == s[k] && s[k] in s[n..next];
    }
  }

  lemma {:induction false} RelationsJoin(s: string, n: nat, next: nat, more: string, rest: string)
    requires 0 < n < next < |s| && s[next..] == more + rest && BareOk("rel", more)
    requires forall k :: 0 <= k < n ==> IsPTokenChar(s[k])
    requires forall k :: n <= k < next ==> s[k] == ' '
    ensures BareOk("rel", s[..next] + more) && s == s[..next] + more + rest
  {
    var text := s[..next] + more;
    assert s == s[..next] + s[next..];
    forall k | 0 <= k < |text| ensures IsPTokenChar(text[k]) || text[k] == ' ' {
      if k >= next {
        assert text[k] == more[k - next];
      }
    }
  }

  // ---------- One parameter ----------

  lemma {:induction false} BareRead(name: string, text: string, rest: string)
    requires BareOk(name, text) && Follows(rest)
    ensures text[0] != '"' && !IsBlank(text[0]) && ConsumeValue(name, text + rest) == Some((text, rest))
  {
    assert IsPTokenChar(text[0]);
    if EqualFold(name, "rel") {
      RelationsRead(text, rest);
    } else {
      FollowsEnd(rest);
      PTokenBack(text, rest);
      assert (text + rest)[..|text|] == text && (text + rest)[|text|..] == rest;
    }
  }

  lemma {:induction false} QuotesRead(name: string, units: seq<Unit>, rest: string)
    requires forall k :: 0 <= k < |units| ==> UnitOk(units[k])
    ensures ConsumeValue(name, ValueText(InQuotes(units)) + rest) == Some((Letters(units), rest))
  {
    var s := ValueText(InQuotes(units)) + rest;
    UnitsRead(units, rest);
    assert s[0] == '"' && s[1..] == UnitsText(units) + ("\"" + rest);
  }

  lemma {:induction false} ValueRead(name: string, v: Spelled, rest: string)
    requires ValueFits(name, v) && Follows(rest)
    ensures ValueText(v) != "" && !IsBlank(ValueText(v)[0]) && ConsumeValue(name, ValueText(v) + rest) == Some((Saying(v), rest))
  {
    match v
    case InQuotes(units) => QuotesRead(name, units, rest);
    case Bare(text) => BareRead(name, text, rest);
  }

  lemma {:induction false} ValueFound(name: string, s: string) returns (v: Spelled)
    requires s != "" && ConsumeValue(name, s).Some?
    ensures ValueFits(name, v) && ConsumeValue(name, s).value.0 == Saying(v) && s == ValueText(v) + ConsumeValue(name, s).value.1
  {
    if s[0] == '"' {
      var units := UnitsFound(s[1..]);
      v := InQuotes(units);
      assert s == "\"" + s[1..];
    } else {
      v := Bare(ConsumeValue(name, s).value.0);
      if EqualFold(name, "rel") {
        RelationsFound(s);
      } else {
        PTokenPart(s);
        assert s == s[..PTokenLength(s)] + s[PTokenLength(s)..];
      }
    }
  }

  lemma {:induction false} NameRead(name: string, rest: string)
    requires NameOk(name) && (rest == "" || !IsTokenChar(rest[0]))
    ensures TokenLength(name + rest) == |name| && (name + rest)[..|name|] == name && (name + rest)[|name|..] == rest && !IsBlank((name + rest)[0])
  {
    TokenBack(name, rest);
    assert IsTokenChar(name[0]);
  }

  // After the semicolon, its blanks and the name come a value or what follows.
  lemma {:induction false} NameThen(name: string, gap: string, after: string)
    requires Blanks(gap) && NameOk(name) && (after == "" || !IsTokenChar(after[0]))
    ensures var s := ";" + (gap + (name + after));
      && TrimBlanks(s[1..]) == name + after
      && NextParameter(s) == Valued(name, TrimBlanks(after))
  {
    var s := ";" + (gap + (name + after));
    NameRead(name, after);
    assert s[1..] == gap + (name + after);
    TrimTo(gap, name + after);
  }

  function Valued(name: string, rest: string): Option<(string, Option<string>, string)> {
    if rest == "" || rest[0] != '=' then Some((name, None, rest))
    else if TrimBlanks(rest[1..]) == "" then None
    else match ConsumeValue(name, TrimBlanks(rest[1..]))
      case None => None
      case Some(r) => Some((name, Some(r.0), r.1))
  }

  lemma {:induction false} ValuedRead(name: string, a: Assigned, rest: string)
    requires AssignedOk(name, Some(a)) && Follows(rest)
    ensures var after := AssignedText(Some(a)) + rest;
      && after != "" && !IsTokenChar(after[0])
      && Valued(name, TrimBlanks(after)) == Some((name, Some(Saying(a.spelled)), rest))
  {
    var text := ValueText(a.spelled) + rest;
    assert AssignedText(Some(a)) + rest == a.before + ("=" + (a.after + text));
    TrimTo(a.before, "=" + (a.after + text));
    assert ("=" + (a.after + text))[1..] == a.after + text;
    ValueRead(name, a.spelled, rest);
    TrimTo(a.after, text);
  }

  lemma {:induction false} UnvaluedRead(name: string, rest: string)
    requires Follows(rest)
    ensures (rest == "" || !IsTokenChar(rest[0])) && Valued(name, TrimBlanks(rest)) == Some((name, None, TrimBlanks(rest)))
    ensures TrimBlanks(TrimBlanks(rest)) == TrimBlanks(rest)
  {
    FollowsEnd(rest);
    var b := TrimCuts(rest);
  }

  // A parameter is read as what it says, up to the blanks that follow it.
  lemma {:induction false} ItemRead(i: Item, rest: string)
    requires ItemOk(i) && Follows(rest)
    ensures var s := TrimBlanks(ItemText(i) + rest);
      && s != "" && s[0] == ';' && NextParameter(s).Some?
      && var p := NextParameter(s).value; p.0 == i.name && p.1 == Said(i.value) && TrimBlanks(p.2) == TrimBlanks(rest)
  {
    var after := AssignedText(i.value) + rest;
    var core := ";" + (i.after + (i.name + after));
    assert ItemText(i) + rest == i.before + core;
    TrimTo(i.before, core);
    if i.value.Some? {
      ValuedRead(i.name, i.value.value, rest);
    } else {
      assert after == rest;
      UnvaluedRead(i.name, rest);
    }
    NameThen(i.name, i.after, after);
  }

  lemma {:induction false} NameFound(s: string) returns (gap: string, name: string, after: string)
    requires s != "" && NextParameter(s).Some?
    ensures Blanks(gap) && NameOk(name) && s == ";" + (gap + (name + after)) && NextParameter(s) == Valued(name, TrimBlanks(after))
  {
    var named := TrimBlanks(s[1..]);
    var n := TokenLength(named);
    gap := TrimCuts(s[1..]);
    name, after := named[..n], named[n..];
    TokenPart(named);
    assert named == name + after && s == [';'] + s[1..];
  }

  lemma {:induction false} Regroup(a: string, b: string, c: string, d: string, rest: string)
    ensures a + (b + (c + (d + rest))) == (a + (b + (c + d))) + rest
  {
  }

  lemma {:induction false} ValuedFound(name: string, after: string) returns (a: Option<Assigned>, rest: string)
    requires Valued(name, TrimBlanks(after)).Some?
    ensures AssignedOk(name, a) && after == AssignedText(a) + rest
    ensures var p := Valued(name, TrimBlanks(after)).value; p.0 == name && p.1 == Said(a) && TrimBlanks(p.2) == TrimBlanks(rest)
  {
    var rest0 := TrimBlanks(after);
    var before := TrimCuts(after);
    if rest0 == "" || rest0[0] != '=' {
      a, rest := None, after;
      assert after == "" + after;
    } else {
      var text := TrimBlanks(rest0[1..]);
      var gap := TrimCuts(rest0[1..]);
      var v := ValueFound(name, text);
      a, rest := Some(Assigned(before, gap, v)), ConsumeValue(name, text).value.1;
      assert rest0 == "=" + rest0[1..];
      Regroup(before, "=", gap, ValueText(v), rest);
    }
  }

  lemma {:induction false} ItemFound(s: string) returns (i: Item, rest: string)
    requires s != "" && NextParameter(s).Some?
    ensures ItemOk(i) && s == ItemText(i) + rest && |rest| < |s|
    ensures var p := NextParameter(s).value; p.0 == i.name && p.1 == Said(i.value) && TrimBlanks(p.2) == TrimBlanks(rest)
  {
    var gap, name, after := NameFound(s);
    var a;
    a, rest := ValuedFound(name, after);
    i := Item("", gap, name, a);
    var text := AssignedText(a);
    Regroup(";", gap, name, text, rest);
    assert ItemText(i) == "" + (";" + (gap + (name + text))) == ";" + (gap + (name + text));
  }

  // ---------- All parameters ----------

  lemma {:induction false} ItemsFollow(items: seq<Item>, tail: string)
    requires Blanks(tail) && forall k :: 0 <= k < |items| ==> ItemOk(items[k])
    ensures Follows(ItemsText(items, tail))
  {
    if items == [] {
      TrimTo(tail, "");
      assert tail + "" == tail;
    } else {
      ItemsFollow(items[1..], tail);
      ItemRead(items[0], ItemsText(items[1..], tail));
    }
  }

  // Only what stands after the blanks matters.
  lemma {:induction false} SameParameters(s: string, t: string, link: Parsed, related: bool, absolute: string -> bool)
    requires TrimBlanks(s) == TrimBlanks(t)
    ensures ParseParameters(s, link, related, absolute) == ParseParameters(t, link, related, absolute)
  {
  }

  lemma {:induction false} ItemsRead(items: seq<Item>, tail: string, link: Parsed, related: bool, absolute: string -> bool)
    requires Blanks(tail) && forall k :: 0 <= k < |items| ==> ItemOk(items[k])
    ensures ParseParameters(ItemsText(items, tail), link, related, absolute) == MeaningFrom(Parameters(items), link, related, absolute)
  {
    if items == [] {
      TrimTo(tail, "");
      assert tail + "" == tail;
    } else {
      var rest := ItemsText(items[1..], tail);
      ItemsFollow(items[1..], tail);
      ItemRead(items[0], rest);
      var p := NextParameter(TrimBlanks(ItemText(items[0]) + rest)).value;
      assert Parameters(items)[1..] == Parameters(items[1..]) && Decoded(Parameters(items)[0]) == p.1;
      var step := Apply(link, related, p.0, p.1, absolute);
      if step.Some? {
        SameParameters(p.2, rest, step.value.0, step.value.1, absolute);
        ItemsRead(items[1..], tail, step.value.0, step.value.1, absolute);
      }
    }
  }

  lemma {:induction false} ItemsFound(s: string, link: Parsed, related: bool, absolute: string -> bool) returns (items: seq<Item>, tail: string)
    requires ParseParameters(s, link, related, absolute).Some?
    ensures Blanks(tail) && (forall k :: 0 <= k < |items| ==> ItemOk(items[k])) && s == ItemsText(items, tail)
    decreases |s|
  {
    var before := TrimCuts(s);
    var r := TrimBlanks(s);
    if r == "" {
      items, tail := [], s;
      assert s == before + "";
    } else {
      var p := NextParameter(r).value;
      var first, rest := ItemFound(r);
      var step := Apply(link, related, p.0, p.1, absolute).value;
      SameParameters(p.2, rest, step.0, step.1, absolute);
      var more;
      more, tail := ItemsFound(rest, step.0, step.1, absolute);
      items := [first.(before := before + first.before)] + more;
      ItemsJoin(before, first, more, tail);
    }
  }

  lemma {:induction false} ItemsJoin(before: string, first: Item, more: seq<Item>, tail: string)
    requires Blanks(before) && ItemOk(first)
    ensures var i := first.(before := before + first.before);
      ItemOk(i) && before + (ItemText(first) + ItemsText(more, tail)) == ItemsText([i] + more, tail)
  {
    var i := first.(before := before + first.before);
    assert ItemText(i) == before + ItemText(first);
    assert ([i] + more)[1..] == more;
  }

  // ---------- The whole value ----------

  lemma {:induction false} SourceRead(s: Source, encoded: string, absolute: string -> bool)
    requires SourceOk(s) && SourceText(s) == Trim(encoded)
    ensures ParseLink(encoded, absolute) == Meaning(Reading(s), absolute)
  {
    var value, items := Trim(encoded), ItemsText(s.items, s.tail);
    assert value[0] == '<' && value[1..] == s.target + ['>'] + items;
    CutAtFirst(s.target, '>', items);
    ItemsRead(s.items, s.tail, Parsed(s.target, false, false), false, absolute);
  }

  lemma {:induction false} CutFound(s: string, sep: char)
    requires Cut(s, sep).Some?
    ensures sep !in Cut(s, sep).value.0 && s == Cut(s, sep).value.0 + [sep] + Cut(s, sep).value.1
  {
    if s[0] != sep {
      CutFound(s[1..], sep);
      assert s == [s[0]] + s[1..];
    } else {
      assert s == "" + [sep] + s[1..];
    }
  }

  lemma {:induction false} SourceFound(encoded: string, absolute: string -> bool) returns (s: Source)
    requires ParseLink(encoded, absolute).Some?
    ensures SourceOk(s) && SourceText(s) == Trim(encoded)
  {
    var value := Trim(encoded);
    var parts := Cut(value[1..], '>').value;
    CutFound(value[1..], '>');
    var items, tail := ItemsFound(parts.1, Parsed(parts.0, false, false), false, absolute);
    s := Source(parts.0, items, tail);
    assert value == ['<'] + value[1..];
  }

  /** A text is accepted as a link exactly when it is spelled as one and what it spells is well formed; it then
      has the spelled target, and is next, or anchored, exactly when a spelled parameter says so. */
  lemma {:induction false} AcceptedExactly(encoded: string, absolute: string -> bool, p: Parsed)
    ensures ParseLink(encoded, absolute) == Some(p) <==>
      exists s :: SourceOk(s) && SourceText(s) == Trim(encoded) && WellFormed(Reading(s), absolute)
               && p == Parsed(s.target, IsNext(Parameters(s.items)), IsAnchored(Parameters(s.items)))
  {
    if ParseLink(encoded, absolute) == Some(p) {
      var s := SourceFound(encoded, absolute);
      SourceRead(s, encoded, absolute);
      MeaningExactly(Reading(s), absolute);
    }
    forall s | SourceOk(s) && SourceText(s) == Trim(encoded) && WellFormed(Reading(s), absolute)
               && p == Parsed(s.target, IsNext(Parameters(s.items)), IsAnchored(Parameters(s.items)))
      ensures ParseLink(encoded, absolute) == Some(p)
    {
      SourceRead(s, encoded, absolute);
      MeaningExactly(Reading(s), absolute);
    }
  }

  // ---------- Splitting a field ----------

  // A text with no comma outside its target and its quotes, no line break, and both closed at its end.
  predicate Whole(piece: string) { Silent(AtStart, piece) && Walk(AtStart, piece) in {AtStart, Between} }

  lemma {:induction false} SplitPieces(s: string, begun: string, mode: Mode)
    requires Split(s, begun, mode).Some? && Silent(AtStart, begun) && Walk(AtStart, begun) == mode
    ensures forall k :: 0 <= k < |Split(s, begun, mode).value| ==> Whole(Split(s, begun, mode).value[k])
    decreases |s|
  {
    if s != "" {
      if Separates(mode, s[0]) {
        SplitPieces(s[1..], "", AtStart);
      } else {
        OneSilent(mode, s[0]);
        WalkOn(begun, [s[0]], AtStart);
        SplitPieces(s[1..], begun + [s[0]], After(mode, s[0]));
      }
    }
  }

  lemma {:induction false} PiecesSplit(values: seq<string>)
    requires values != [] && forall k :: 0 <= k < |values| ==> Whole(values[k])
    ensures Split(Join(values), "", AtStart) == Some(values)
  {
    var first, rest := values[0], Join(values[1..]);
    assert "" + first == first;
    if |values| == 1 {
      SplitWalk(first, "", "", AtStart);
      assert first + "" == first && values == [first];
    } else {
      PiecesSplit(values[1..]);
      SplitWalk(first, "," + rest, "", AtStart);
      assert ("," + rest)[1..] == rest && first + "," + rest == first + ("," + rest);
      assert values == [first] + values[1..];
    }
  }

  /** A field is split at exactly the commas outside targets and quoted strings, and refused exactly when no
      such cut leaves every target and quoted string closed. */
  lemma {:induction false} SplitExactly(field: string, values: seq<string>)
    ensures Split(field, "", AtStart) == Some(values) <==>
      values != [] && Join(values) == field && forall k :: 0 <= k < |values| ==> Whole(values[k])
  {
    if Split(field, "", AtStart) == Some(values) {
      JoinSplit(field, "", AtStart);
      SplitPieces(field, "", AtStart);
      assert "" + field == field;
    } else if values != [] && forall k :: 0 <= k < |values| ==> Whole(values[k]) {
      PiecesSplit(values);
    }
  }

  // ---------- The next page, from any field lines ----------

  ghost predicate SpelledBy(value: string, s: Source, absolute: string -> bool) {
    SourceOk(s) && SourceText(s) == Trim(value) && WellFormed(Reading(s), absolute)
  }

  // The value is a link to the next page.
  ghost predicate NextValue(value: string, target: string, absolute: string -> bool) {
    exists s :: SpelledBy(value, s, absolute) && s.target == target && IsNext(Parameters(s.items)) && !IsAnchored(Parameters(s.items))
  }

  // The value is blank or a link elsewhere.
  ghost predicate OtherValue(value: string, absolute: string -> bool) {
    Trim(value) == "" || exists s :: SpelledBy(value, s, absolute) && !IsNext(Parameters(s.items))
  }

  ghost predicate OnlyNextValue(values: seq<string>, i: int, target: string, absolute: string -> bool) {
    && 0 <= i < |values| && NextValue(values[i], target, absolute)
    && forall k :: 0 <= k < |values| && k != i ==> OtherValue(values[k], absolute)
  }

  lemma {:induction false} ValueTaken(value: string, target: string, absolute: string -> bool)
    ensures NextValue(value, target, absolute) <==> Trim(value) != "" && ParseLink(value, absolute) == Some(Parsed(target, true, false))
    ensures OtherValue(value, absolute) <==> Trim(value) == "" || (ParseLink(value, absolute).Some? && !ParseLink(value, absolute).value.next)
  {
    AcceptedExactly(value, absolute, Parsed(target, true, false));
    if ParseLink(value, absolute).Some? {
      AcceptedExactly(value, absolute, ParseLink(value, absolute).value);
    }
    if Trim(value) != "" && OtherValue(value, absolute) {
      var s :| SpelledBy(value, s, absolute) && !IsNext(Parameters(s.items));
      AcceptedExactly(value, absolute, Parsed(s.target, false, IsAnchored(Parameters(s.items))));
    }
  }

  // The first value, by what it is.
  lemma {:induction false} FirstTaken(values: seq<string>, found: Option<string>, absolute: string -> bool) returns (next: Option<string>)
    requires values != []
    ensures OtherValue(values[0], absolute) ==> next == found
    ensures next != found ==> next.Some? && found.None? && NextValue(values[0], next.value, absolute)
    ensures ReadValues(values, found, absolute) ==
      if OtherValue(values[0], absolute) || next != found then ReadValues(values[1..], next, absolute) else ReadValues(values[..1], found, absolute)
    ensures !OtherValue(values[0], absolute) && next == found ==> !ReadValues(values, found, absolute).Page?
    ensures found.None? && next == found ==> forall t :: !NextValue(values[0], t, absolute)
  {
    var link := ParseLink(values[0], absolute);
    next := if Trim(values[0]) != "" && link.Some? && link.value.next && !link.value.anchor && found.None? then Some(link.value.target) else found;
    assert values[..1][0] == values[0];
    forall t ensures NextValue(values[0], t, absolute) <==> Trim(values[0]) != "" && link == Some(Parsed(t, true, false)) {
      ValueTaken(values[0], t, absolute);
    }
    ValueTaken(values[0], "", absolute);
  }

  lemma {:induction false} NoneMore(values: seq<string>, found: Option<string>, absolute: string -> bool)
    ensures ReadValues(values, found, absolute) == Page(found) <==> forall k :: 0 <= k < |values| ==> OtherValue(values[k], absolute)
    ensures found.Some? && ReadValues(values, found, absolute).Page? ==> ReadValues(values, found, absolute) == Page(found)
  {
    if values != [] {
      var next := FirstTaken(values, found, absolute);
      NoneMore(values[1..], next, absolute);
      assert forall k :: 1 <= k < |values| ==> values[k] == values[1..][k - 1];
    }
  }

  lemma {:induction false} ValuesExactly(values: seq<string>, target: string, absolute: string -> bool)
    ensures ReadValues(values, None, absolute) == Page(Some(target)) <==> exists i :: OnlyNextValue(values, i, target, absolute)
  {
    if values != [] {
      var next := FirstTaken(values, None, absolute);
      if OtherValue(values[0], absolute) {
        ValuesExactly(values[1..], target, absolute);
        OnlyLater(values, target, absolute);
      } else {
        assert forall i :: OnlyNextValue(values, i, target, absolute) ==> i == 0;
        if next.Some? {
          NoneMore(values[1..], next, absolute);
          OnlyFirst(values, next.value, target, absolute);
        } else {
          assert !OnlyNextValue(values, 0, target, absolute);
        }
      }
    }
  }

  lemma {:induction false} OnlyFirst(values: seq<string>, next: string, target: string, absolute: string -> bool)
    requires values != [] && NextValue(values[0], next, absolute)
    ensures OnlyNextValue(values, 0, target, absolute) <==> next == target && forall k :: 0 <= k < |values[1..]| ==> OtherValue(values[1..][k], absolute)
  {
    ValueTaken(values[0], next, absolute);
    ValueTaken(values[0], target, absolute);
    assert forall k :: 1 <= k < |values| ==> values[k] == values[1..][k - 1];
  }

  lemma {:induction false} OnlyLater(values: seq<string>, target: string, absolute: string -> bool)
    requires values != [] && OtherValue(values[0], absolute)
    ensures (exists i :: OnlyNextValue(values, i, target, absolute)) <==> exists i :: OnlyNextValue(values[1..], i, target, absolute)
  {
    var rest := values[1..];
    ValueTaken(values[0], target, absolute);
    assert forall k :: 1 <= k < |values| ==> values[k] == rest[k - 1];
    forall i | OnlyNextValue(rest, i, target, absolute) ensures OnlyNextValue(values, i + 1, target, absolute) {
      forall k | 0 <= k < |values| && k != i + 1 ensures OtherValue(values[k], absolute) {
        assert k > 0 ==> values[k] == rest[k - 1];
      }
    }
    forall i | OnlyNextValue(values, i, target, absolute) ensures OnlyNextValue(rest, i - 1, target, absolute) {
      forall k | 0 <= k < |rest| && k != i - 1 ensures OtherValue(rest[k], absolute) {
        assert rest[k] == values[k + 1];
      }
    }
  }

  // The values of all field lines, if each can be split.
  ghost function AllValues(fields: seq<string>): Option<seq<string>> {
    if fields == [] then Some([])
    else match (Split(fields[0], "", AtStart), AllValues(fields[1..]))
      case (Some(values), Some(more)) => Some(values + more)
      case _ => None
  }

  lemma {:induction false} ReadOn(a: seq<string>, b: seq<string>, found: Option<string>, absolute: string -> bool)
    ensures ReadValues(a + b, found, absolute) == match ReadValues(a, found, absolute) case Page(next) => ReadValues(b, next, absolute) case failure => failure
  {
    if a == [] {
      assert a + b == b;
    } else {
      assert (a + b)[1..] == a[1..] + b;
      ReadOn(a[1..], b, found, absolute);
      match Consider(ParseLink(a[0], absolute), found)
      case Page(next) => ReadOn(a[1..], b, next, absolute);
      case _ =>
    }
  }

  lemma {:induction false} FieldsTogether(fields: seq<string>, found: Option<string>, absolute: string -> bool, next: Option<string>)
    ensures ReadFields(fields, found, absolute) == Page(next) <==>
      AllValues(fields).Some? && ReadValues(AllValues(fields).value, found, absolute) == Page(next)
  {
    if fields != [] && Split(fields[0], "", AtStart).Some? {
      var values, more := Split(fields[0], "", AtStart).value, AllValues(fields[1..]);
      var page := ReadValues(values, found, absolute);
      if page.Page? {
        FieldsTogether(fields[1..], page.next, absolute, next);
      }
      if more.Some? {
        ReadOn(values, more.value, found, absolute);
        assert AllValues(fields) == Some(values + more.value);
      }
    }
  }

  /** Paging goes on to a target exactly when the values of all field lines are blank or well-formed links, one of
      them is an unanchored link with rel=next to that target, and no other is a link to a next page. It ends
      exactly when none is. */
  lemma {:induction false} NextPageExactly(fields: seq<string>, target: string, absolute: string -> bool)
    ensures ReadFields(fields, None, absolute) == Page(Some(target)) <==>
      AllValues(fields).Some? && exists i :: OnlyNextValue(AllValues(fields).value, i, target, absolute)
    ensures ReadFields(fields, None, absolute) == Page(None) <==>
      AllValues(fields).Some? && var values := AllValues(fields).value; forall k :: 0 <= k < |values| ==> OtherValue(values[k], absolute)
  {
    FieldsTogether(fields, None, absolute, Some(target));
    FieldsTogether(fields, None, absolute, None);
    if AllValues(fields).Some? {
      ValuesExactly(AllValues(fields).value, target, absolute);
      NoneMore(AllValues(fields).value, None, absolute);
    }
  }
}
