/** Reading a Link field (internal/tams/pagination.go:121-469; section 3 of RFC 8288). Header text is a
    string of Unicode characters. Whether an extension relation type is an absolute URI is asked of the
    environment. */
module LinkSyntax {
  import opened Text

  predicate IsLetter(c: char) { 'a' <= c <= 'z' || 'A' <= c <= 'Z' }

  predicate IsTokenChar(c: char) { IsLetter(c) || IsDigit(c) || c in {'!', '#', '$', '%', '&', '\'', '*', '+', '-', '.', '^', '_', '`', '|', '~'} }

  predicate IsPTokenChar(c: char) { IsLetter(c) || IsDigit(c) || c in {'!', '#', '$', '%', '&', '\'', '(', ')', '*', '+', '-', '.', '/', ':', '<', '=', '>', '?', '@', '[', ']', '^', '_', '`', '{', '|', '}', '~'} }

  predicate IsBreak(c: char) { c == '\r' || c == '\n' }

  predicate IsBlank(c: char) { c == ' ' || c == '\t' }

  function Lower(c: char): char { if 'A' <= c <= 'Z' then ('a' as int + (c as int - 'A' as int)) as char else c }

  // strings.EqualFold against an ASCII word none of whose letters folds to anything but its other case.
  predicate EqualFold(s: string, word: string) { |s| == |word| && forall k :: 0 <= k < |s| ==> Lower(s[k]) == Lower(word[k]) }

  // ---------- Splitting a field into link values ----------

  // Where the scanner is: before a target, after one, inside <>, inside "" or after a backslash there.
  datatype Mode = AtStart | Between | InTarget | InQuote | Escaped

  function After(mode: Mode, c: char): Mode {
    match mode
    case InTarget => if c == '>' then Between else InTarget
    case Escaped => InQuote
    case InQuote => if c == '\\' then Escaped else if c == '"' then Between else InQuote
    case _ => if c == '<' && mode == AtStart then InTarget
              else if c == '"' then InQuote
              else if IsBlank(c) then mode
              else Between
  }

  predicate Separates(mode: Mode, c: char) { (mode == AtStart || mode == Between) && c == ',' }

  // The values of the rest of a field, the first of which has begun with the given text.
  function Split(s: string, begun: string, mode: Mode): Option<seq<string>> {
    if s == "" then
      if mode == AtStart || mode == Between then Some([begun]) else None
    else if IsBreak(s[0]) then None
    else if Separates(mode, s[0]) then
      match Split(s[1..], "", AtStart)
      case None => None
      case Some(values) => Some([begun] + values)
    else Split(s[1..], begun + [s[0]], After(mode, s[0]))
  }

  function Join(values: seq<string>): string {
    if values == [] then ""
    else if |values| == 1 then values[0]
    else values[0] + "," + Join(values[1..])
  }

  /** Putting the values back together gives the field. */
  lemma {:induction false} JoinSplit(s: string, begun: string, mode: Mode)
    requires Split(s, begun, mode).Some?
    ensures Split(s, begun, mode).value != [] && Join(Split(s, begun, mode).value) == begun + s
    decreases |s|
  {
    if s == "" {
      assert begun + s == begun;
    } else if Separates(mode, s[0]) {
      JoinSplit(s[1..], "", AtStart);
      var rest := Split(s[1..], "", AtStart).value;
      assert ([begun] + rest)[1..] == rest;
      assert s == "," + s[1..];
    } else {
      JoinSplit(s[1..], begun + [s[0]], After(mode, s[0]));
      assert begun + [s[0]] + s[1..] == begun + s;
    }
  }

  method SplitLinkValues(field: string) returns (values: Option<seq<string>>)
    ensures values == Split(field, "", AtStart)
  {
    var found: seq<string>, start, atLinkStart, inTarget, inQuote, escaped := [], 0, true, false, false, false;
    var index := 0;
    assert field[0..] == field && field[0..0] == "";
    assert forall rest: seq<string> :: [] + rest == rest;
    while index < |field|
      invariant 0 <= start <= index <= |field|
      invariant !(inTarget && inQuote) && (escaped ==> inQuote) && (inTarget || inQuote ==> !atLinkStart)
      invariant Split(field, "", AtStart) == Prepend(found, Split(field[index..], field[start..index], ModeOf(atLinkStart, inTarget, inQuote, escaped)))
    {
      var c := field[index];
      ghost var mode := ModeOf(atLinkStart, inTarget, inQuote, escaped);
      assert field[index..][1..] == field[index + 1..] && field[start..index] + [c] == field[start..index + 1];
      if IsBreak(c) {
        return None;
      }
      if inTarget {
        inTarget := c != '>';
      } else if inQuote {
        if escaped {
          escaped := false;
        } else if c == '\\' {
          escaped := true;
        } else if c == '"' {
          inQuote := false;
        }
      } else if c == ',' {
        PrependOne(found, field[start..index], Split(field[index + 1..], "", AtStart));
        found, start, atLinkStart := found + [field[start..index]], index + 1, true;
        assert field[start..index + 1] == "";
      } else if c == '<' {
        inTarget, atLinkStart := atLinkStart, false;
      } else if c == '"' {
        inQuote, atLinkStart := true, false;
      } else if !IsBlank(c) {
        atLinkStart := false;
      }
      index := index + 1;
    }
    assert field[index..] == "" && field[start..index] == field[start..];
    if inTarget || inQuote {
      return None;
    }
    return Some(found + [field[start..]]);
  }

  ghost function ModeOf(atLinkStart: bool, inTarget: bool, inQuote: bool, escaped: bool): Mode {
    if inTarget then InTarget else if escaped then Escaped else if inQuote then InQuote else if atLinkStart then AtStart else Between
  }

  ghost function Prepend(found: seq<string>, rest: Option<seq<string>>): Option<seq<string>> {
    match rest
    case None => None
    case Some(values) => Some(found + values)
  }

  lemma PrependOne(found: seq<string>, one: string, rest: Option<seq<string>>)
    ensures Prepend(found + [one], rest) == Prepend(found, match rest case None => None case Some(values) => Some([one] + values))
  {
    if rest.Some? {
      assert found + [one] + rest.value == found + ([one] + rest.value);
    }
  }

  // ---------- Parsing one link value ----------

  function TrimBlanks(s: string): (r: string)
    ensures |r| <= |s|
    ensures r != "" ==> !IsBlank(r[0])
  {
    if s != "" && IsBlank(s[0]) then TrimBlanks(s[1..]) else s
  }

  function TokenLength(s: string): (n: nat)
    ensures n <= |s|
  {
    if s != "" && IsTokenChar(s[0]) then 1 + TokenLength(s[1..]) else 0
  }

  function PTokenLength(s: string): (n: nat)
    ensures n <= |s|
  {
    if s != "" && IsPTokenChar(s[0]) then 1 + PTokenLength(s[1..]) else 0
  }

  function BlankLength(s: string): (n: nat)
    ensures n <= |s|
  {
    if s != "" && IsBlank(s[0]) then 1 + BlankLength(s[1..]) else 0
  }

  predicate IsQuotable(c: char) { c == '\t' || (c as int >= 0x20 && c as int != 0x7f) }

  // After the opening quote: the text, and what follows the closing quote.
  function ConsumeQuoted(s: string): (r: Option<(string, string)>)
    ensures r.Some? ==> |r.value.1| < |s|
  {
    if s == "" then None
    else if s[0] == '"' then Some(("", s[1..]))
    else if s[0] == '\\' then
      if |s| < 2 || IsBreak(s[1]) then None
      else match ConsumeQuoted(s[2..])
        case None => None
        case Some(r) => Some(([s[1]] + r.0, r.1))
    else if IsQuotable(s[0]) then
      match ConsumeQuoted(s[1..])
      case None => None
      case Some(r) => Some(([s[0]] + r.0, r.1))
    else None
  }

  // Unquoted relation types are separated by spaces, which no other value may contain.
  function ConsumeRelations(s: string): (r: Option<(string, string)>)
    ensures r.Some? ==> |r.value.1| <= |s|
    decreases |s|
  {
    var n := PTokenLength(s);
    if n == 0 then None
    else if n == |s| || s[n] == ';' then Some((s[..n], s[n..]))
    else if !IsBlank(s[n]) then None
    else
      var next := n + BlankLength(s[n..]);
      if next == |s| || s[next] == ';' then Some((s[..n], s[n..]))
      else if '\t' in s[n..next] then None
      else match ConsumeRelations(s[next..])
        case None => None
        case Some(r) => Some((s[..next] + r.0, r.1))
  }

  function ConsumeValue(name: string, s: string): (r: Option<(string, string)>)
    requires s != ""
    ensures r.Some? ==> |r.value.1| <= |s|
  {
    if s[0] == '"' then ConsumeQuoted(s[1..])
    else if EqualFold(name, "rel") then ConsumeRelations(s)
    else if PTokenLength(s) == 0 then None
    else Some((s[..PTokenLength(s)], s[PTokenLength(s)..]))
  }

  // strings.Fields.
  function Fields(s: string, begun: string): seq<string> {
    if s == "" then if begun == "" then [] else [begun]
    else if IsSpace(s[0]) then (if begun == "" then [] else [begun]) + Fields(s[1..], "")
    else Fields(s[1..], begun + [s[0]])
  }

  predicate IsHex(c: char) { IsDigit(c) || 'a' <= c <= 'f' || 'A' <= c <= 'F' }

  predicate IsURIText(s: string) {
    s == "" ||
    (if s[0] == '%' then |s| >= 3 && IsHex(s[1]) && IsHex(s[2]) && IsURIText(s[3..])
     else (IsLetter(s[0]) || IsDigit(s[0]) || s[0] in {'-', '.', '_', '~', ':', '/', '?', '#', '[', ']', '@', '!', '$', '&', '\'', '(', ')', '*', '+', ',', ';', '='}) && IsURIText(s[1..]))
  }

  predicate IsRegisteredRelation(s: string) {
    s != "" && IsLetter(s[0]) && forall k :: 1 <= k < |s| ==> IsLetter(s[k]) || IsDigit(s[k]) || s[k] == '.' || s[k] == '-'
  }

  predicate IsRelation(s: string, absolute: string -> bool) { IsRegisteredRelation(s) || (IsURIText(s) && absolute(s)) }

  function RelationTypes(value: string, absolute: string -> bool): Option<seq<string>> {
    if value == "" || value[0] == ' ' || value[|value| - 1] == ' ' || '\t' in value then None
    else if forall r <- Fields(value, "") :: IsRelation(r, absolute) then Some(Fields(value, ""))
    else None
  }

  datatype Parsed = Parsed(target: string, next: bool, anchor: bool)

  // What one parameter does to the link; None refuses the whole value.
  function Apply(link: Parsed, related: bool, name: string, value: Option<string>, absolute: string -> bool): Option<(Parsed, bool)> {
    if EqualFold(name, "rel") then
      if related || value.None? then None
      else match RelationTypes(value.value, absolute)
        case None => None
        case Some(types) => Some((link.(next := link.next || exists r <- types :: EqualFold(r, "next")), true))
    else if EqualFold(name, "anchor") then
      if value.None? then None else Some((link.(anchor := true), related))
    else Some((link, related))
  }

  // One parameter from the front of the text: its name, its value and the rest.
  function NextParameter(s: string): (r: Option<(string, Option<string>, string)>)
    requires s != ""
    ensures r.Some? ==> |r.value.2| < |s|
  {
    if s[0] != ';' then None
    else
      var named := TrimBlanks(s[1..]);
      var n := TokenLength(named);
      var rest := TrimBlanks(named[n..]);
      if n == 0 then None
      else if rest == "" || rest[0] != '=' then Some((named[..n], None, rest))
      else
        var valued := TrimBlanks(rest[1..]);
        if valued == "" then None
        else match ConsumeValue(named[..n], valued)
          case None => None
          case Some(r) => Some((named[..n], Some(r.0), r.1))
  }

  function ParseParameters(s: string, link: Parsed, related: bool, absolute: string -> bool): Option<Parsed>
    decreases |s|
  {
    var r := TrimBlanks(s);
    if r == "" then Some(link)
    else match NextParameter(r)
      case None => None
      case Some(p) =>
        match Apply(link, related, p.0, p.1, absolute)
        case None => None
        case Some(step) => ParseParameters(p.2, step.0, step.1, absolute)
  }

  function ParseLink(encoded: string, absolute: string -> bool): Option<Parsed> {
    var value := Trim(encoded);
    if value == "" || value[0] != '<' then None
    else match Cut(value[1..], '>')
      case None => None
      case Some(parts) => ParseParameters(parts.1, Parsed(parts.0, false, false), false, absolute)
  }

  method ParseLinkValue(encoded: string, absolute: string -> bool) returns (parsed: Option<Parsed>)
    ensures parsed == ParseLink(encoded, absolute)
  {
    var value := Trim(encoded);
    if value == "" || value[0] != '<' {
      return None;
    }
    var parts := Cut(value[1..], '>');
    if parts.None? {
      return None;
    }
    var link, remainder, related := Parsed(parts.value.0, false, false), TrimBlanks(parts.value.1), false;
    while remainder != ""
      invariant ParseLink(encoded, absolute) == ParseParameters(remainder, link, related, absolute)
      invariant remainder == TrimBlanks(remainder)
      decreases |remainder|
    {
      var p := NextParameter(remainder);
      if p.None? {
        return None;
      }
      var step := Apply(link, related, p.value.0, p.value.1, absolute);
      if step.None? {
        return None;
      }
      link, related, remainder := step.value.0, step.value.1, TrimBlanks(p.value.2);
    }
    return Some(link);
  }
}
