/** What a Link field says, and what paging takes from it (internal/tams/pagination.go:121-154). A field
    is printed from a list of links; reading it back recovers what each link means, whatever
    commas, semicolons and quotes its targets and values contain. */
module LinkHeader {
  import opened Text
  import opened LinkSyntax

  datatype Value = Token(text: string) | Quoted(text: string)
  datatype Parameter = Parameter(name: string, value: Option<Value>)
  datatype Link = Link(target: string, parameters: seq<Parameter>)

  // ---------- Printing ----------

  function Escape(s: string): string {
    if s == "" then ""
    else (if s[0] == '"' || s[0] == '\\' then ['\\', s[0]] else [s[0]]) + Escape(s[1..])
  }

  function PrintValue(v: Value): string {
    match v
    case Token(text) => text
    case Quoted(text) => "\"" + Escape(text) + "\""
  }

  function PrintParameter(p: Parameter): string {
    "; " + p.name + (if p.value.Some? then "=" + PrintValue(p.value.value) else "")
  }

  function PrintParameters(ps: seq<Parameter>): string {
    if ps == [] then "" else PrintParameter(ps[0]) + PrintParameters(ps[1..])
  }

  function Print(link: Link): string { "<" + link.target + ">" + PrintParameters(link.parameters) }

  function PrintField(links: seq<Link>): string {
    if links == [] then ""
    else if |links| == 1 then Print(links[0])
    else Print(links[0]) + ", " + PrintField(links[1..])
  }

  // ---------- Which links can be printed ----------

  ghost predicate ValueOk(v: Value) {
    match v
    case Token(text) => text != "" && forall k :: 0 <= k < |text| ==> IsPTokenChar(text[k])
    case Quoted(text) => forall k :: 0 <= k < |text| ==> IsQuotable(text[k])
  }

  ghost predicate ParameterOk(p: Parameter) {
    p.name != "" && (forall k :: 0 <= k < |p.name| ==> IsTokenChar(p.name[k])) && (p.value.Some? ==> ValueOk(p.value.value))
  }

  ghost predicate LinkOk(link: Link) {
    && (forall k :: 0 <= k < |link.target| ==> link.target[k] != '>' && !IsBreak(link.target[k]))
    && forall k :: 0 <= k < |link.parameters| ==> ParameterOk(link.parameters[k])
  }

  // ---------- What a link means ----------

  function Decoded(p: Parameter): Option<string> { if p.value.Some? then Some(p.value.value.text) else None }

  function MeaningFrom(ps: seq<Parameter>, link: Parsed, related: bool, absolute: string -> bool): Option<Parsed> {
    if ps == [] then Some(link)
    else match Apply(link, related, ps[0].name, Decoded(ps[0]), absolute)
      case None => None
      case Some(step) => MeaningFrom(ps[1..], step.0, step.1, absolute)
  }

  function Meaning(link: Link, absolute: string -> bool): Option<Parsed> {
    MeaningFrom(link.parameters, Parsed(link.target, false, false), false, absolute)
  }

  // ---------- What a link says, from its parameters alone ----------

  // The word in any case; it is given in lower case.
  predicate Spells(s: string, word: string) {
    |s| == |word| && forall k :: 0 <= k < |word| ==> s[k] == word[k] || ('a' <= word[k] <= 'z' && s[k] as int == word[k] as int - 32)
  }

  // s[i..j] is a word: no blanks inside, and blanks or the ends of the text around it.
  predicate IsWord(s: string, i: int, j: int) {
    && 0 <= i < j <= |s| && (forall k :: i <= k < j ==> !IsSpace(s[k]))
    && (i == 0 || IsSpace(s[i - 1])) && (j == |s| || IsSpace(s[j]))
  }

  ghost predicate HasWord(s: string, w: string) { exists i, j :: IsWord(s, i, j) && s[i..j] == w }

  ghost predicate SaysRel(p: Parameter) { Spells(p.name, "rel") }

  ghost predicate SaysAnchor(p: Parameter) { Spells(p.name, "anchor") }

  // A list of relation types: words with single-line blanks between them and none around.
  ghost predicate RelationsOk(text: string, absolute: string -> bool) {
    && text != "" && text[0] != ' ' && text[|text| - 1] != ' ' && '\t' !in text
    && forall w :: HasWord(text, w) ==> IsRelation(w, absolute)
  }

  ghost predicate NamesNext(p: Parameter) {
    SaysRel(p) && p.value.Some? && exists w :: HasWord(p.value.value.text, w) && Spells(w, "next")
  }

  // A relation parameter has relation types, and an anchor some value.
  ghost predicate Sensible(p: Parameter, absolute: string -> bool) {
    && (SaysRel(p) ==> p.value.Some? && RelationsOk(p.value.value.text, absolute))
    && (SaysAnchor(p) ==> p.value.Some?)
  }

  ghost predicate Readable(ps: seq<Parameter>, related: bool, absolute: string -> bool) {
    && (forall k :: 0 <= k < |ps| ==> Sensible(ps[k], absolute))
    && (forall j, k :: 0 <= j < k < |ps| ==> !(SaysRel(ps[j]) && SaysRel(ps[k])))
    && (related ==> forall k :: 0 <= k < |ps| ==> !SaysRel(ps[k]))
  }

  // Each parameter is sensible and there is at most one relation parameter.
  ghost predicate WellFormed(link: Link, absolute: string -> bool) { Readable(link.parameters, false, absolute) }

  // Some parameter makes the link next, or anchors it elsewhere.
  ghost predicate IsNext(ps: seq<Parameter>) { exists k :: 0 <= k < |ps| && NamesNext(ps[k]) }

  ghost predicate IsAnchored(ps: seq<Parameter>) { exists k :: 0 <= k < |ps| && SaysAnchor(ps[k]) && ps[k].value.Some? }

  lemma FoldSpells(s: string)
    ensures EqualFold(s, "rel") <==> Spells(s, "rel")
    ensures EqualFold(s, "anchor") <==> Spells(s, "anchor")
    ensures EqualFold(s, "next") <==> Spells(s, "next")
  {
  }

  ghost predicate Solid(s: string) { forall k :: 0 <= k < |s| ==> !IsSpace(s[k]) }

  // A word of a text that begins with a solid piece and a blank is that piece or comes after the blank.
  lemma {:induction false} WordsOf(begun: string, s: string, i: int, j: int)
    requires s != "" && IsSpace(s[0]) && Solid(begun) && IsWord(begun + s, i, j)
    ensures (begun + s)[i..j] == begun != "" || HasWord(s[1..], (begun + s)[i..j])
  {
    var t, rest, n := begun + s, s[1..], |begun| + 1;
    assert t[|begun|] == s[0];
    assert forall k :: 0 <= k < |begun| ==> t[k] == begun[k] && !IsSpace(t[k]);
    if i < n {
      assert i < |begun| && i == 0;
      assert j == |begun|;
      assert t[..j] == begun;
    } else {
      assert rest == t[n..] && rest[i - n..j - n] == t[i..j];
      forall k | i - n <= k < j - n ensures !IsSpace(rest[k]) {
        assert rest[k] == t[k + n];
      }
      assert IsWord(rest, i - n, j - n);
    }
  }

  lemma {:induction false} WordLater(begun: string, s: string, i: int, j: int)
    requires s != "" && IsSpace(s[0]) && IsWord(s[1..], i, j)
    ensures HasWord(begun + s, s[1..][i..j])
  {
    var t, rest, n := begun + s, s[1..], |begun| + 1;
    assert t[|begun|] == s[0] && rest == t[n..] && rest[i..j] == t[i + n..j + n];
    forall k | i + n <= k < j + n ensures !IsSpace(t[k]) {
      assert t[k] == rest[k - n];
    }
    assert IsWord(t, i + n, j + n);
  }

  // A blank ends the word begun and starts the search for the next.
  lemma {:induction false} WordsSplit(begun: string, s: string, w: string)
    requires s != "" && IsSpace(s[0]) && Solid(begun)
    ensures HasWord(begun + s, w) <==> (begun != "" && w == begun) || HasWord(s[1..], w)
  {
    if HasWord(begun + s, w) {
      var i, j :| IsWord(begun + s, i, j) && (begun + s)[i..j] == w;
      WordsOf(begun, s, i, j);
    }
    if begun != "" && w == begun {
      WordFirst(begun, s);
    }
    if HasWord(s[1..], w) {
      var i, j :| IsWord(s[1..], i, j) && s[1..][i..j] == w;
      WordLater(begun, s, i, j);
    }
  }

  lemma {:induction false} WordFirst(begun: string, s: string)
    requires begun != "" && Solid(begun) && (s == "" || IsSpace(s[0]))
    ensures HasWord(begun + s, begun)
  {
    var t := begun + s;
    assert t[0..|begun|] == begun && forall k :: 0 <= k < |begun| ==> t[k] == begun[k];
    assert IsWord(t, 0, |begun|);
  }

  lemma {:induction false} WordsFound(s: string, begun: string, w: string)
    requires Solid(begun)
    ensures w in Fields(s, begun) <==> HasWord(begun + s, w)
    decreases |s|
  {
    if s == "" {
      assert begun + s == begun;
      if begun != "" {
        assert IsWord(begun, 0, |begun|) && begun[0..|begun|] == begun;
      }
      if HasWord(begun, w) {
        var i, j :| IsWord(begun, i, j) && begun[i..j] == w;
        assert i == 0 && j == |begun|;
      }
    } else if IsSpace(s[0]) {
      WordsFound(s[1..], "", w);
      assert "" + s[1..] == s[1..];
      WordsSplit(begun, s, w);
    } else {
      WordsFound(s[1..], begun + [s[0]], w);
      assert begun + [s[0]] + s[1..] == begun + s;
    }
  }

  lemma {:induction false} RelationsMean(text: string, absolute: string -> bool)
    ensures RelationTypes(text, absolute).Some? <==> RelationsOk(text, absolute)
    ensures RelationsOk(text, absolute) ==>
      ((exists r <- RelationTypes(text, absolute).value :: EqualFold(r, "next")) <==> exists w :: HasWord(text, w) && Spells(w, "next"))
  {
    assert "" + text == text;
    forall w: string ensures w in Fields(text, "") <==> HasWord(text, w) {
      WordsFound(text, "", w);
    }
    forall w: string ensures EqualFold(w, "next") <==> Spells(w, "next") {
      FoldSpells(w);
    }
  }

  // What the first parameter does, in its own terms.
  lemma {:induction false} StepMeans(p: Parameter, link: Parsed, related: bool, absolute: string -> bool)
    ensures Apply(link, related, p.name, Decoded(p), absolute).Some? <==> Sensible(p, absolute) && !(related && SaysRel(p))
    ensures Apply(link, related, p.name, Decoded(p), absolute).Some? ==>
      var step := Apply(link, related, p.name, Decoded(p), absolute).value;
      && step.0 == Parsed(link.target, link.next || NamesNext(p), link.anchor || (SaysAnchor(p) && p.value.Some?))
      && (step.1 <==> related || SaysRel(p))
  {
    FoldSpells(p.name);
    if p.value.Some? {
      RelationsMean(p.value.value.text, absolute);
    }
  }

  lemma {:induction false} MeansFrom(ps: seq<Parameter>, link: Parsed, related: bool, absolute: string -> bool)
    ensures MeaningFrom(ps, link, related, absolute) ==
      if Readable(ps, related, absolute) then Some(Parsed(link.target, link.next || IsNext(ps), link.anchor || IsAnchored(ps))) else None
  {
    if ps != [] {
      var rest := ps[1..];
      StepMeans(ps[0], link, related, absolute);
      PartsFirst(ps, related, absolute);
      var step := Apply(link, related, ps[0].name, Decoded(ps[0]), absolute);
      if step.Some? {
        MeansFrom(rest, step.value.0, step.value.1, absolute);
      }
    }
  }

  lemma {:induction false} PartsFirst(ps: seq<Parameter>, related: bool, absolute: string -> bool)
    requires ps != []
    ensures Readable(ps, related, absolute) <==>
      Sensible(ps[0], absolute) && !(related && SaysRel(ps[0])) && Readable(ps[1..], related || SaysRel(ps[0]), absolute)
    ensures IsNext(ps) <==> NamesNext(ps[0]) || IsNext(ps[1..])
    ensures IsAnchored(ps) <==> (SaysAnchor(ps[0]) && ps[0].value.Some?) || IsAnchored(ps[1..])
  {
    var rest := ps[1..];
    assert forall k :: 0 <= k < |rest| ==> rest[k] == ps[k + 1];
    assert forall k :: 1 <= k < |ps| ==> ps[k] == rest[k - 1];
  }

  /** A link means something exactly when it is well formed; and then it is next, or anchored, exactly when one
      of its parameters says so. */
  lemma MeaningExactly(link: Link, absolute: string -> bool)
    ensures Meaning(link, absolute) ==
      if WellFormed(link, absolute) then Some(Parsed(link.target, IsNext(link.parameters), IsAnchored(link.parameters))) else None
  {
    MeansFrom(link.parameters, Parsed(link.target, false, false), false, absolute);
  }

  // ---------- Reading one printed parameter ----------

  lemma {:induction false} QuotedBack(s: string, rest: string)
    requires forall k :: 0 <= k < |s| ==> IsQuotable(s[k])
    ensures ConsumeQuoted(Escape(s) + "\"" + rest) == Some((s, rest))
  {
    var text := Escape(s) + "\"" + rest;
    if s == "" {
      assert text == "\"" + rest;
    } else {
      QuotedBack(s[1..], rest);
      var tail := Escape(s[1..]) + "\"" + rest;
      assert [s[0]] + s[1..] == s;
      if s[0] == '"' || s[0] == '\\' {
        assert text == ['\\', s[0]] + tail && text[2..] == tail;
      } else {
        assert text == [s[0]] + tail && text[1..] == tail;
      }
    }
  }

  lemma {:induction false} TokenBack(s: string, rest: string)
    requires forall k :: 0 <= k < |s| ==> IsTokenChar(s[k])
    requires rest == "" || !IsTokenChar(rest[0])
    ensures TokenLength(s + rest) == |s|
  {
    if s != "" {
      assert (s + rest)[1..] == s[1..] + rest;
      TokenBack(s[1..], rest);
    } else {
      assert s + rest == rest;
    }
  }

  lemma {:induction false} PTokenBack(s: string, rest: string)
    requires forall k :: 0 <= k < |s| ==> IsPTokenChar(s[k])
    requires rest == "" || !IsPTokenChar(rest[0])
    ensures PTokenLength(s + rest) == |s|
  {
    if s != "" {
      assert (s + rest)[1..] == s[1..] + rest;
      PTokenBack(s[1..], rest);
    } else {
      assert s + rest == rest;
    }
  }

  // A parameter ends where the next begins or the value ends.
  ghost predicate Ends(rest: string) { rest == "" || rest[0] == ';' }

  lemma TokenValueBack(name: string, text: string, rest: string)
    requires ValueOk(Token(text)) && Ends(rest)
    ensures ConsumeValue(name, text + rest) == Some((text, rest))
  {
    var s := text + rest;
    PTokenBack(text, rest);
    assert s[..|text|] == text && s[|text|..] == rest;
    assert IsPTokenChar(s[0]);
    if EqualFold(name, "rel") {
      assert ConsumeRelations(s) == Some((text, rest));
    }
  }

  lemma ValueBack(name: string, v: Value, rest: string)
    requires ValueOk(v) && Ends(rest)
    ensures PrintValue(v) != "" && !IsBlank(PrintValue(v)[0]) && ConsumeValue(name, PrintValue(v) + rest) == Some((v.text, rest))
  {
    match v
    case Quoted(text) =>
      QuotedBack(text, rest);
      assert (PrintValue(v) + rest)[1..] == Escape(text) + "\"" + rest;
    case Token(text) =>
      TokenValueBack(name, text, rest);
      assert IsPTokenChar(text[0]);
  }

  lemma {:induction false} NameBack(name: string, after: string)
    requires name != "" && (forall k :: 0 <= k < |name| ==> IsTokenChar(name[k])) && (after == "" || (!IsTokenChar(after[0]) && !IsBlank(after[0])))
    ensures var named := TrimBlanks((" " + name + after));
      TokenLength(named) == |name| && named[..|name|] == name && TrimBlanks(named[|name|..]) == after
  {
    var named := name + after;
    assert " " + name + after == " " + named && (" " + named)[1..] == named;
    assert IsTokenChar(named[0]);
    assert TrimBlanks(" " + named) == named;
    TokenBack(name, after);
    assert named[..|name|] == name && named[|name|..] == after;
  }

  lemma BareBack(s: string, name: string, rest: string)
    requires name != "" && (forall k :: 0 <= k < |name| ==> IsTokenChar(name[k])) && Ends(rest)
    requires s != "" && s[0] == ';' && s[1..] == " " + name + rest
    ensures NextParameter(s) == Some((name, None, rest))
  {
    NameBack(name, rest);
  }

  lemma ValuedBack(s: string, name: string, v: Value, rest: string)
    requires name != "" && (forall k :: 0 <= k < |name| ==> IsTokenChar(name[k])) && ValueOk(v) && Ends(rest)
    requires s != "" && s[0] == ';' && s[1..] == " " + name + ("=" + (PrintValue(v) + rest))
    ensures NextParameter(s) == Some((name, Some(v.text), rest))
  {
    var text := PrintValue(v) + rest;
    NameBack(name, "=" + text);
    ValueBack(name, v, rest);
    assert ("=" + text)[1..] == text;
    assert TrimBlanks(text) == text;
  }

  lemma ParameterBack(p: Parameter, rest: string)
    requires ParameterOk(p) && Ends(rest)
    ensures NextParameter(PrintParameter(p) + rest) == Some((p.name, Decoded(p), rest))
  {
    var s := PrintParameter(p) + rest;
    if p.value.Some? {
      assert s[1..] == " " + p.name + ("=" + (PrintValue(p.value.value) + rest));
      ValuedBack(s, p.name, p.value.value, rest);
    } else {
      assert s[1..] == " " + p.name + rest;
      BareBack(s, p.name, rest);
    }
  }

  lemma {:induction false} ParametersBack(ps: seq<Parameter>, link: Parsed, related: bool, absolute: string -> bool)
    requires forall k :: 0 <= k < |ps| ==> ParameterOk(ps[k])
    ensures Ends(PrintParameters(ps))
    ensures ParseParameters(PrintParameters(ps), link, related, absolute) == MeaningFrom(ps, link, related, absolute)
  {
    if ps != [] {
      var s, rest := PrintParameters(ps), PrintParameters(ps[1..]);
      ParametersBack(ps[1..], link, related, absolute);
      ParameterBack(ps[0], rest);
      assert TrimBlanks(s) == s;
      var step := Apply(link, related, ps[0].name, Decoded(ps[0]), absolute);
      if step.Some? {
        ParametersBack(ps[1..], step.value.0, step.value.1, absolute);
      }
    }
  }

  lemma ParameterEnd(p: Parameter)
    requires ParameterOk(p)
    ensures var s := PrintParameter(p); s != "" && !IsSpace(s[|s| - 1])
  {
    var s := PrintParameter(p);
    match p.value
    case None => assert s[|s| - 1] == p.name[|p.name| - 1] && IsTokenChar(p.name[|p.name| - 1]);
    case Some(Token(text)) => assert s[|s| - 1] == text[|text| - 1] && IsPTokenChar(text[|text| - 1]);
    case Some(Quoted(text)) => assert s[|s| - 1] == '"';
  }

  // Trimming finds nothing at the end of a printed link.
  lemma {:induction false} PrintedEnd(ps: seq<Parameter>)
    requires forall k :: 0 <= k < |ps| ==> ParameterOk(ps[k])
    ensures ps != [] ==> var s := PrintParameters(ps); s != "" && !IsSpace(s[|s| - 1])
  {
    if ps != [] {
      PrintedEnd(ps[1..]);
      ParameterEnd(ps[0]);
    }
  }

  lemma PrintedTight(link: Link)
    requires LinkOk(link)
    ensures Trim(Print(link)) == Trim(" " + Print(link)) == Print(link) != "" && Print(link)[0] == '<'
  {
    var s, ps := Print(link), PrintParameters(link.parameters);
    PrintedEnd(link.parameters);
    assert s[|s| - 1] == if ps == "" then '>' else ps[|ps| - 1];
    TrimTight(s);
    assert (" " + s)[1..] == s;
  }

  /** Parsing a printed link, with any blanks before it, gives its meaning. */
  lemma LinkBack(link: Link, absolute: string -> bool)
    requires LinkOk(link)
    ensures ParseLink(Print(link), absolute) == Meaning(link, absolute)
    ensures ParseLink(" " + Print(link), absolute) == Meaning(link, absolute)
    ensures Trim(Print(link)) == Trim(" " + Print(link)) == Print(link) != ""
  {
    var s, ps := Print(link), PrintParameters(link.parameters);
    PrintedTight(link);
    assert s[1..] == link.target + ['>'] + ps;
    CutAtFirst(link.target, '>', ps);
    ParametersBack(link.parameters, Parsed(link.target, false, false), false, absolute);
  }

  // ---------- Splitting a printed field ----------

  function Walk(mode: Mode, s: string): Mode
    decreases |s|
  {
    if s == "" then mode else Walk(After(mode, s[0]), s[1..])
  }

  // Nothing in the text separates values or breaks the line.
  predicate Silent(mode: Mode, s: string)
    decreases |s|
  {
    s == "" || (!IsBreak(s[0]) && !Separates(mode, s[0]) && Silent(After(mode, s[0]), s[1..]))
  }

  lemma {:induction false} SplitWalk(s: string, rest: string, begun: string, mode: Mode)
    requires Silent(mode, s)
    ensures Split(s + rest, begun, mode) == Split(rest, begun + s, Walk(mode, s))
    decreases |s|
  {
    if s != "" {
      assert (s + rest)[1..] == s[1..] + rest;
      SplitWalk(s[1..], rest, begun + [s[0]], After(mode, s[0]));
      assert begun + [s[0]] + s[1..] == begun + s;
    } else {
      assert s + rest == rest && begun + s == begun;
    }
  }

  lemma {:induction false} WalkOn(a: string, b: string, mode: Mode)
    requires Silent(mode, a) && Silent(Walk(mode, a), b)
    ensures Silent(mode, a + b) && Walk(mode, a + b) == Walk(Walk(mode, a), b)
    decreases |a|
  {
    if a != "" {
      assert (a + b)[1..] == a[1..] + b;
      WalkOn(a[1..], b, After(mode, a[0]));
    } else {
      assert a + b == b;
    }
  }

  lemma {:induction false} TargetSilent(target: string)
    requires forall k :: 0 <= k < |target| ==> target[k] != '>' && !IsBreak(target[k])
    ensures Silent(InTarget, target) && Walk(InTarget, target) == InTarget
  {
    if target != "" {
      TargetSilent(target[1..]);
    }
  }

  lemma {:induction false} PlainSilent(s: string)
    requires forall k :: 0 <= k < |s| ==> IsTokenChar(s[k]) || IsPTokenChar(s[k])
    ensures Silent(Between, s) && Walk(Between, s) == Between
  {
    if s != "" {
      PlainSilent(s[1..]);
    }
  }

  lemma {:induction false} EscapeSilent(s: string)
    requires forall k :: 0 <= k < |s| ==> IsQuotable(s[k])
    ensures Silent(InQuote, Escape(s)) && Walk(InQuote, Escape(s)) == InQuote
  {
    if s != "" {
      EscapeSilent(s[1..]);
      var first := if s[0] == '"' || s[0] == '\\' then ['\\', s[0]] else [s[0]];
      if |first| == 2 {
        OneSilent(Escaped, s[0]);
        assert first[1..] == [s[0]];
      } else {
        OneSilent(InQuote, s[0]);
      }
      WalkOn(first, Escape(s[1..]), InQuote);
    }
  }

  lemma {:induction false} OneSilent(mode: Mode, c: char)
    requires !IsBreak(c) && !Separates(mode, c)
    ensures Silent(mode, [c]) && Walk(mode, [c]) == After(mode, c)
  {
    assert [c][1..] == "";
  }

  lemma ValueSilent(v: Value)
    requires ValueOk(v)
    ensures Silent(Between, PrintValue(v)) && Walk(Between, PrintValue(v)) == Between
  {
    match v
    case Token(text) => PlainSilent(text);
    case Quoted(text) =>
      OneSilent(Between, '"');
      OneSilent(InQuote, '"');
      EscapeSilent(text);
      WalkOn("\"", Escape(text), Between);
      WalkOn("\"" + Escape(text), "\"", Between);
  }

  lemma ParameterSilent(p: Parameter)
    requires ParameterOk(p)
    ensures Silent(Between, PrintParameter(p)) && Walk(Between, PrintParameter(p)) == Between
  {
    OneSilent(Between, ';');
    OneSilent(Between, ' ');
    OneSilent(Between, '=');
    WalkOn([';'], [' '], Between);
    assert [';'] + [' '] == "; ";
    PlainSilent(p.name);
    WalkOn("; ", p.name, Between);
    if p.value.Some? {
      ValueSilent(p.value.value);
      WalkOn("=", PrintValue(p.value.value), Between);
      WalkOn("; " + p.name, "=" + PrintValue(p.value.value), Between);
    } else {
      assert "; " + p.name + "" == "; " + p.name;
    }
  }

  lemma {:induction false} ParametersSilent(ps: seq<Parameter>)
    requires forall k :: 0 <= k < |ps| ==> ParameterOk(ps[k])
    ensures Silent(Between, PrintParameters(ps)) && Walk(Between, PrintParameters(ps)) == Between
  {
    if ps != [] {
      ParameterSilent(ps[0]);
      ParametersSilent(ps[1..]);
      WalkOn(PrintParameter(ps[0]), PrintParameters(ps[1..]), Between);
    }
  }

  lemma PrintSilent(link: Link)
    requires LinkOk(link)
    ensures Silent(AtStart, Print(link)) && Walk(AtStart, Print(link)) == Between
    ensures Silent(AtStart, " " + Print(link)) && Walk(AtStart, " " + Print(link)) == Between
  {
    OneSilent(AtStart, '<');
    OneSilent(InTarget, '>');
    OneSilent(AtStart, ' ');
    TargetSilent(link.target);
    ParametersSilent(link.parameters);
    WalkOn("<", link.target, AtStart);
    WalkOn("<" + link.target, ">", AtStart);
    WalkOn("<" + link.target + ">", PrintParameters(link.parameters), AtStart);
    WalkOn(" ", Print(link), AtStart);
  }

  // The values a printed list splits into: all but the first keep the blank after their comma.
  function Values(links: seq<Link>, blank: string): seq<string> {
    if links == [] then [] else [blank + Print(links[0])] + Values(links[1..], " ")
  }

  lemma {:induction false} SplitLast(piece: string)
    requires Silent(AtStart, piece) && Walk(AtStart, piece) == Between
    ensures Split(piece, "", AtStart) == Some([piece])
  {
    SplitWalk(piece, "", "", AtStart);
    assert piece + "" == piece && "" + piece == piece;
  }

  lemma {:induction false} SplitFirst(piece: string, tail: string)
    requires Silent(AtStart, piece) && Walk(AtStart, piece) == Between
    requires Split(tail, "", AtStart).Some?
    ensures Split(piece + ("," + tail), "", AtStart) == Some([piece] + Split(tail, "", AtStart).value)
  {
    SplitWalk(piece, "," + tail, "", AtStart);
    assert ("," + tail)[1..] == tail && "" + piece == piece;
  }

  lemma {:induction false} SplitPrinted(links: seq<Link>, blank: string)
    requires links != [] && (blank == "" || blank == " ") && forall k :: 0 <= k < |links| ==> LinkOk(links[k])
    ensures Split(blank + PrintField(links), "", AtStart) == Some(Values(links, blank))
    decreases |links|
  {
    var piece := blank + Print(links[0]);
    PieceSilent(links[0], blank);
    if |links| == 1 {
      SplitLast(piece);
      assert Values(links, blank) == [piece];
    } else {
      var tail := " " + PrintField(links[1..]);
      SplitPrinted(links[1..], " ");
      SplitFirst(piece, tail);
      FieldText(blank, Print(links[0]), PrintField(links[1..]));
    }
  }

  lemma {:induction false} PieceSilent(link: Link, blank: string)
    requires LinkOk(link) && (blank == "" || blank == " ")
    ensures Silent(AtStart, blank + Print(link)) && Walk(AtStart, blank + Print(link)) == Between
  {
    PrintSilent(link);
    assert "" + Print(link) == Print(link);
  }

  lemma FieldText(blank: string, first: string, rest: string)
    ensures blank + (first + ", " + rest) == (blank + first) + ("," + (" " + rest))
  {
  }

  // ---------- The next page ----------

  datatype Page = Malformed | Anchored | Ambiguous | Page(next: Option<string>)

  // One link more, after those that found this target.
  function Consider(link: Option<Parsed>, found: Option<string>): Page {
    match link
    case None => Malformed
    case Some(l) => if !l.next then Page(found) else if l.anchor then Anchored else if found.Some? then Ambiguous else Page(Some(l.target))
  }

  function ReadValues(values: seq<string>, found: Option<string>, absolute: string -> bool): Page {
    if values == [] then Page(found)
    else if Trim(values[0]) == "" then ReadValues(values[1..], found, absolute)
    else match Consider(ParseLink(values[0], absolute), found)
      case Page(next) => ReadValues(values[1..], next, absolute)
      case failure => failure
  }

  function ReadFields(fields: seq<string>, found: Option<string>, absolute: string -> bool): Page {
    if fields == [] then Page(found)
    else match Split(fields[0], "", AtStart)
      case None => Malformed
      case Some(values) =>
        match ReadValues(values, found, absolute)
        case Page(next) => ReadFields(fields[1..], next, absolute)
        case failure => failure
  }

  method NextPageURL(headerValues: seq<string>, absolute: string -> bool) returns (page: Page)
    ensures page == ReadFields(headerValues, None, absolute)
  {
    var next: Option<string>, f := None, 0;
    while f < |headerValues|
      invariant 0 <= f <= |headerValues|
      invariant ReadFields(headerValues, None, absolute) == ReadFields(headerValues[f..], next, absolute)
    {
      assert headerValues[f..][1..] == headerValues[f + 1..];
      var values := SplitLinkValues(headerValues[f]);
      if values.None? {
        return Malformed;
      }
      page := ReadLinks(values.value, next, absolute);
      if !page.Page? {
        return;
      }
      next, f := page.next, f + 1;
    }
    return Page(next);
  }

  method ReadLinks(links: seq<string>, found: Option<string>, absolute: string -> bool) returns (page: Page)
    ensures page == ReadValues(links, found, absolute)
  {
    var next, k := found, 0;
    while k < |links|
      invariant 0 <= k <= |links|
      invariant ReadValues(links, found, absolute) == ReadValues(links[k..], next, absolute)
    {
      assert links[k..][1..] == links[k + 1..];
      if Trim(links[k]) != "" {
        var link := ParseLinkValue(links[k], absolute);
        if link.None? {
          return Malformed;
        }
        if link.value.next {
          if link.value.anchor {
            return Anchored;
          }
          if next.Some? {
            return Ambiguous;
          }
          next := Some(link.value.target);
        }
      }
      k := k + 1;
    }
    return Page(next);
  }

  // What the printed links say, read off the links themselves.
  function Take(links: seq<Link>, found: Option<string>, absolute: string -> bool): Page {
    if links == [] then Page(found)
    else match Consider(Meaning(links[0], absolute), found)
      case Page(next) => Take(links[1..], next, absolute)
      case failure => failure
  }

  lemma {:induction false} ValuesBack(links: seq<Link>, blank: string, found: Option<string>, absolute: string -> bool)
    requires (blank == "" || blank == " ") && forall k :: 0 <= k < |links| ==> LinkOk(links[k])
    ensures ReadValues(Values(links, blank), found, absolute) == Take(links, found, absolute)
    decreases |links|
  {
    if links != [] {
      LinkBack(links[0], absolute);
      assert "" + Print(links[0]) == Print(links[0]);
      var step := Consider(Meaning(links[0], absolute), found);
      assert Values(links, blank)[1..] == Values(links[1..], " ");
      if step.Page? {
        ValuesBack(links[1..], " ", step.next, absolute);
      }
    }
  }

  function Flatten(fields: seq<seq<Link>>): seq<Link> { if fields == [] then [] else fields[0] + Flatten(fields[1..]) }

  function PrintFields(fields: seq<seq<Link>>): seq<string> {
    if fields == [] then [] else [PrintField(fields[0])] + PrintFields(fields[1..])
  }

  lemma {:induction false} TakeOn(a: seq<Link>, b: seq<Link>, found: Option<string>, absolute: string -> bool)
    ensures Take(a + b, found, absolute) == match Take(a, found, absolute) case Page(next) => Take(b, next, absolute) case failure => failure
    decreases |a|
  {
    if a != [] {
      assert (a + b)[1..] == a[1..] + b;
      var step := Consider(Meaning(a[0], absolute), found);
      if step.Page? {
        TakeOn(a[1..], b, step.next, absolute);
      }
    } else {
      assert a + b == b;
    }
  }

  /** Round trip: reading printed fields gives what their links say, in order. */
  lemma {:induction false} FieldsBack(fields: seq<seq<Link>>, found: Option<string>, absolute: string -> bool)
    requires forall f, k :: 0 <= f < |fields| && 0 <= k < |fields[f]| ==> LinkOk(fields[f][k])
    ensures ReadFields(PrintFields(fields), found, absolute) == Take(Flatten(fields), found, absolute)
    decreases |fields|
  {
    if fields != [] {
      var links, rest := fields[0], fields[1..];
      TakeOn(links, Flatten(rest), found, absolute);
      assert PrintFields(fields)[1..] == PrintFields(rest);
      if links == [] {
        assert Split("", "", AtStart) == Some([""]) && [""][1..] == [];
        assert ReadValues([""], found, absolute) == Page(found);
      } else {
        SplitPrinted(links, "");
        assert "" + PrintField(links) == PrintField(links);
        ValuesBack(links, "", found, absolute);
      }
      var step := Take(links, found, absolute);
      forall f, k | 0 <= f < |rest| && 0 <= k < |rest[f]| ensures LinkOk(rest[f][k]) {
        assert rest[f] == fields[f + 1];
      }
      if step.Page? {
        FieldsBack(rest, step.next, absolute);
      }
    }
  }

  ghost predicate MeansNext(link: Link, target: string, absolute: string -> bool) {
    Meaning(link, absolute).Some? && Meaning(link, absolute).value.next && !Meaning(link, absolute).value.anchor
    && Meaning(link, absolute).value.target == target
  }

  ghost predicate MeansElsewhere(link: Link, absolute: string -> bool) { Meaning(link, absolute).Some? && !Meaning(link, absolute).value.next }

  // The i-th link is the one next link, and no other value spoils the list.
  ghost predicate OnlyMeant(links: seq<Link>, i: int, target: string, absolute: string -> bool) {
    0 <= i < |links| && MeansNext(links[i], target, absolute) && forall k :: 0 <= k < |links| && k != i ==> MeansElsewhere(links[k], absolute)
  }

  lemma {:induction false} NoneFound(links: seq<Link>, found: Option<string>, absolute: string -> bool)
    ensures (forall k :: 0 <= k < |links| ==> MeansElsewhere(links[k], absolute)) ==> Take(links, found, absolute) == Page(found)
    ensures found.Some? && Take(links, found, absolute).Page? ==>
      Take(links, found, absolute).next == found && forall k :: 0 <= k < |links| ==> MeansElsewhere(links[k], absolute)
    decreases |links|
  {
    if links != [] {
      NoneFound(links[1..], found, absolute);
      assert forall k :: 0 <= k < |links[1..]| ==> links[1..][k] == links[k + 1];
      assert forall k :: 1 <= k < |links| ==> links[k] == links[1..][k - 1];
    }
  }

  lemma {:induction false} UniqueMeant(links: seq<Link>, target: string, absolute: string -> bool)
    ensures Take(links, None, absolute) == Page(Some(target)) <==>
      exists i :: OnlyMeant(links, i, target, absolute)
    decreases |links|
  {
    if links != [] {
      var rest := links[1..];
      assert forall k :: 0 <= k < |rest| ==> rest[k] == links[k + 1];
      if MeansNext(links[0], target, absolute) {
        NoneFound(rest, Some(target), absolute);
        NextFirst(links, target, absolute);
      } else {
        UniqueMeant(rest, target, absolute);
        NextLater(links, target, absolute);
      }
    }
  }

  lemma NextFirst(links: seq<Link>, target: string, absolute: string -> bool)
    requires links != [] && MeansNext(links[0], target, absolute)
    ensures (forall k :: 0 <= k < |links[1..]| ==> MeansElsewhere(links[1..][k], absolute)) <==>
      exists i :: OnlyMeant(links, i, target, absolute)
  {
    assert forall k :: 1 <= k < |links| ==> links[k] == links[1..][k - 1];
    assert !MeansElsewhere(links[0], absolute);
    if forall k :: 0 <= k < |links[1..]| ==> MeansElsewhere(links[1..][k], absolute) {
      assert OnlyMeant(links, 0, target, absolute);
    }
  }

  lemma {:induction false} NextLater(links: seq<Link>, target: string, absolute: string -> bool)
    requires links != [] && !MeansNext(links[0], target, absolute)
    requires var rest := links[1..];
      Take(rest, None, absolute) == Page(Some(target)) <==>
        exists i :: OnlyMeant(rest, i, target, absolute)
    ensures Take(links, None, absolute) == Page(Some(target)) <==>
      exists i :: OnlyMeant(links, i, target, absolute)
  {
    var rest := links[1..];
    assert forall k :: 0 <= k < |rest| ==> rest[k] == links[k + 1];
    if Take(links, None, absolute) == Page(Some(target)) {
      if MeansElsewhere(links[0], absolute) {
        var i :| OnlyMeant(rest, i, target, absolute);
        assert OnlyMeant(links, i + 1, target, absolute) by {
          assert forall k :: 1 <= k < |links| ==> links[k] == rest[k - 1];
        }
      } else {
        NoneFound(rest, Some(Meaning(links[0], absolute).value.target), absolute);
      }
    }
    if i :| OnlyMeant(links, i, target, absolute) {
      assert OnlyMeant(rest, i - 1, target, absolute);
    }
  }

  // A well-formed link to this page's successor, and one to something else.
  ghost predicate SaysNext(link: Link, target: string, absolute: string -> bool) {
    WellFormed(link, absolute) && IsNext(link.parameters) && !IsAnchored(link.parameters) && link.target == target
  }

  ghost predicate Elsewhere(link: Link, absolute: string -> bool) { WellFormed(link, absolute) && !IsNext(link.parameters) }

  // The i-th link is the one next link, and no other value spoils the list.
  ghost predicate OnlyNext(links: seq<Link>, i: int, target: string, absolute: string -> bool) {
    0 <= i < |links| && SaysNext(links[i], target, absolute) && forall k :: 0 <= k < |links| && k != i ==> Elsewhere(links[k], absolute)
  }

  lemma {:induction false} SaysMeans(links: seq<Link>, target: string, absolute: string -> bool)
    ensures (exists i :: OnlyNext(links, i, target, absolute)) <==> exists i :: OnlyMeant(links, i, target, absolute)
    ensures (forall k :: 0 <= k < |links| ==> Elsewhere(links[k], absolute)) <==> forall k :: 0 <= k < |links| ==> MeansElsewhere(links[k], absolute)
  {
    forall k | 0 <= k < |links|
      ensures SaysNext(links[k], target, absolute) <==> MeansNext(links[k], target, absolute)
      ensures Elsewhere(links[k], absolute) <==> MeansElsewhere(links[k], absolute)
    {
      MeaningExactly(links[k], absolute);
    }
    if i :| OnlyNext(links, i, target, absolute) {
      assert OnlyMeant(links, i, target, absolute);
    }
    if i :| OnlyMeant(links, i, target, absolute) {
      assert OnlyNext(links, i, target, absolute);
    }
  }

  /** The cursor is the target of the one unanchored next link; two of them, an anchored one, or a value that
      cannot be read give none; and the listing ends exactly when every link leads elsewhere. */
  lemma {:induction false} UniqueNext(links: seq<Link>, target: string, absolute: string -> bool)
    ensures Take(links, None, absolute) == Page(Some(target)) <==> exists i :: OnlyNext(links, i, target, absolute)
    ensures Take(links, None, absolute) == Page(None) <==> forall k :: 0 <= k < |links| ==> Elsewhere(links[k], absolute)
  {
    UniqueMeant(links, target, absolute);
    NoneTaken(links, absolute);
    SaysMeans(links, target, absolute);
  }

  lemma {:induction false} NoneTaken(links: seq<Link>, absolute: string -> bool)
    ensures Take(links, None, absolute) == Page(None) <==> forall k :: 0 <= k < |links| ==> MeansElsewhere(links[k], absolute)
  {
    if links != [] {
      var rest := links[1..];
      assert forall k :: 0 <= k < |rest| ==> rest[k] == links[k + 1];
      assert forall k :: 1 <= k < |links| ==> links[k] == rest[k - 1];
      NoneTaken(rest, absolute);
      if !MeansElsewhere(links[0], absolute) && Consider(Meaning(links[0], absolute), None).Page? {
        NoneFound(rest, Some(Meaning(links[0], absolute).value.target), absolute);
      }
    }
  }

  /** Paging over printed fields goes on exactly to the unique unanchored next target, and ends exactly when
      no link is next. */
  lemma {:induction false} CursorRoundTrip(fields: seq<seq<Link>>, target: string, absolute: string -> bool)
    requires forall f, k :: 0 <= f < |fields| && 0 <= k < |fields[f]| ==> LinkOk(fields[f][k])
    ensures var links := Flatten(fields); var page := ReadFields(PrintFields(fields), None, absolute);
      && (page == Page(Some(target)) <==> exists i :: OnlyNext(links, i, target, absolute))
      && (page == Page(None) <==> forall k :: 0 <= k < |links| ==> Elsewhere(links[k], absolute))
  {
    FieldsBack(fields, None, absolute);
    UniqueNext(Flatten(fields), target, absolute);
  }

  lemma OneWord(w: string)
    ensures HasWord("next", w) ==> w == "next"
  {
    if HasWord("next", w) {
      var i, j :| IsWord("next", i, j) && "next"[i..j] == w;
      assert i == 0 && j == 4;
    }
  }

  lemma NextIsRelation(absolute: string -> bool)
    ensures RelationsOk("next", absolute) && HasWord("next", "next")
  {
    assert IsRelation("next", absolute);
    forall w: string | HasWord("next", w) ensures IsRelation(w, absolute) {
      OneWord(w);
    }
    assert IsWord("next", 0, 4) && "next"[0..4] == "next";
  }

  lemma PlainNext(target: string, absolute: string -> bool)
    ensures SaysNext(Link(target, [Parameter("rel", Some(Quoted("next")))]), target, absolute)
  {
    var ps := [Parameter("rel", Some(Quoted("next")))];
    NextIsRelation(absolute);
    assert Sensible(ps[0], absolute) && NamesNext(ps[0]) && !SaysAnchor(ps[0]);
  }

  // The plainest header is followed.
  lemma FollowsNext(target: string, absolute: string -> bool)
    requires forall k :: 0 <= k < |target| ==> target[k] != '>' && !IsBreak(target[k])
    ensures ReadFields(["<" + target + ">; rel=\"next\""], None, absolute) == Page(Some(target))
  {
    var link := Link(target, [Parameter("rel", Some(Quoted("next")))]);
    var fields := [[link]];
    PlainNext(target, absolute);
    PlainText(target);
    assert fields[1..] == [] && PrintField([link]) == Print(link);
    assert PrintFields(fields) == [PrintField([link])] + PrintFields([]);
    assert Flatten(fields) == [link] + Flatten([]);
    assert OnlyNext([link], 0, target, absolute) && LinkOk(link);
    assert [link] + Flatten([]) == [link] && [PrintField([link])] + PrintFields([]) == [PrintField([link])];
    CursorRoundTrip(fields, target, absolute);
  }

  lemma PlainParameter()
    ensures PrintParameter(Parameter("rel", Some(Quoted("next")))) == "; rel=\"next\""
  {
    EscapePlain("next");
    assert "\"" + "next" + "\"" == "\"next\"";
    assert "; " + "rel" + ("=" + "\"next\"") == "; rel=\"next\"";
  }

  lemma PlainText(target: string)
    ensures Print(Link(target, [Parameter("rel", Some(Quoted("next")))])) == "<" + target + ">; rel=\"next\""
  {
    var p := Parameter("rel", Some(Quoted("next")));
    PlainParameter();
    assert [p][1..] == [] && PrintParameters([p]) == PrintParameter(p) + PrintParameters([]);
    assert ">" + "; rel=\"next\"" == ">; rel=\"next\"";
  }

  lemma {:induction false} EscapePlain(s: string)
    requires forall k :: 0 <= k < |s| ==> s[k] != '"' && s[k] != '\\'
    ensures Escape(s) == s
  {
    if s != "" {
      EscapePlain(s[1..]);
    }
  }
}
