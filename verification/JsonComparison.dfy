/** Comparing two JSON trees (internal/ingest/json_values.go:25-213). Numbers are exact; one that cannot be
    read as a JSON number equals nothing, itself included. Null, absent and empty stay distinct. */
module JsonComparison {
  import opened Text

  datatype Json =
    | Null
    | Bool(value: bool)
    | Number(exact: real)
    | Malformed             // a numeric value that is not a JSON number
    | String(text: string)
    | Array(items: seq<Json>)
    | Object(members: map<string, Json>)

  // What differs, and where; None is a missing value.
  datatype Mismatch = Mismatch(path: string, generated: Option<Json>, profile: Option<Json>)

  // ---------- Key order ----------

  // Byte order, as sort.Strings has it.
  predicate Less(a: string, b: string) {
    if b == "" then false
    else if a == "" then true
    else a[0] < b[0] || (a[0] == b[0] && Less(a[1..], b[1..]))
  }

  // The texts agree up to k, where the first ends before the second or has the lesser character.
  ghost predicate FirstLess(a: string, b: string, k: int) {
    && 0 <= k <= |a| && k < |b| && a[..k] == b[..k]
    && (k == |a| || a[k] < b[k])
  }

  lemma {:induction false} FirstLessLess(a: string, b: string, k: int)
    requires FirstLess(a, b, k)
    ensures Less(a, b)
  {
    if k > 0 {
      assert a[..k][0] == b[..k][0] && a[1..][..k - 1] == a[..k][1..] && b[1..][..k - 1] == b[..k][1..];
      FirstLessLess(a[1..], b[1..], k - 1);
    }
  }

  lemma {:induction false} LessFirst(a: string, b: string) returns (k: int)
    requires Less(a, b)
    ensures FirstLess(a, b, k)
  {
    if a != "" && a[0] == b[0] {
      var j := LessFirst(a[1..], b[1..]);
      k := j + 1;
      assert a[..k] == [a[0]] + a[1..][..j] && b[..k] == [b[0]] + b[1..][..j];
    } else {
      k := 0;
    }
  }

  /** The order of keys: the first differing character decides, or else the shorter text comes first. */
  lemma {:induction false} LessExactly(a: string, b: string)
    ensures Less(a, b) <==> exists k :: FirstLess(a, b, k)
  {
    if Less(a, b) {
      var k := LessFirst(a, b);
    }
    if k :| FirstLess(a, b, k) {
      FirstLessLess(a, b, k);
    }
  }

  lemma {:induction false} LessTotal(a: string, b: string)
    ensures Less(a, b) || a == b || Less(b, a)
    ensures !(Less(a, b) && Less(b, a)) && !Less(a, a)
  {
    if a != "" && b != "" {
      assert a == [a[0]] + a[1..] && b == [b[0]] + b[1..];
      LessTotal(a[1..], b[1..]);
    }
    if a != "" {
      LessTotal(a[1..], a[1..]);
    }
  }

  lemma {:induction false} LessTransitive(a: string, b: string, c: string)
    requires Less(a, b) && Less(b, c)
    ensures Less(a, c)
  {
    if a != "" && a[0] == b[0] == c[0] {
      LessTransitive(a[1..], b[1..], c[1..]);
    }
  }

  ghost predicate IsLeast(k: string, s: set<string>) { k in s && forall j :: j in s && j != k ==> Less(k, j) }

  lemma {:induction false} LeastExists(s: set<string>)
    requires s != {}
    ensures exists k :: IsLeast(k, s)
  {
    var x :| x in s;
    var rest := s - {x};
    if rest == {} {
      assert s == {x};
      assert IsLeast(x, s);
    } else {
      LeastExists(rest);
      var k :| IsLeast(k, rest);
      LessTotal(x, k);
      if Less(x, k) {
        forall j | j in s && j != x ensures Less(x, j) {
          if j != k { LessTransitive(x, k, j); }
        }
        assert IsLeast(x, s);
      } else {
        assert IsLeast(k, s);
      }
    }
  }

  ghost function SortedKeys(s: set<string>): seq<string>
    decreases |s|
  {
    if s == {} then []
    else
      LeastExists(s);
      var k :| IsLeast(k, s);
      [k] + SortedKeys(s - {k})
  }

  ghost predicate Ascending(keys: seq<string>) { forall i, j :: 0 <= i < j < |keys| ==> Less(keys[i], keys[j]) }

  lemma {:induction false} SortedKeysOf(s: set<string>)
    ensures Ascending(SortedKeys(s)) && forall k :: k in SortedKeys(s) <==> k in s
    decreases |s|
  {
    if s != {} {
      LeastExists(s);
      var k := SortedKeys(s)[0];
      assert IsLeast(k, s) && SortedKeys(s) == [k] + SortedKeys(s - {k});
      SortedKeysOf(s - {k});
      Prefixed(k, SortedKeys(s - {k}), s);
    }
  }

  lemma Prefixed(k: string, rest: seq<string>, s: set<string>)
    requires IsLeast(k, s) && Ascending(rest) && forall j :: j in rest <==> j in s - {k}
    ensures Ascending([k] + rest) && forall j :: j in [k] + rest <==> j in s
  {
    forall i | 0 <= i < |rest| ensures Less(k, rest[i]) {
      assert rest[i] in rest;
    }
  }

  // Collecting the keys into a slice and sorting it gives that order.
  method OrderKeys(generated: set<string>, profile: set<string>) returns (ordered: seq<string>)
    ensures ordered == SortedKeys(generated + profile)
  {
    var left := generated + profile;
    ordered := [];
    while exists k :: k in left
      invariant left <= generated + profile && Ascending(ordered)
      invariant forall k :: k in ordered <==> k in generated + profile && k !in left
      decreases |left|
    {
      var k :| k in left;
      ordered := Insert(ordered, k);
      left := left - {k};
    }
    SortedKeysOf(generated + profile);
    OrderUnique(ordered, SortedKeys(generated + profile));
  }

  method Insert(keys: seq<string>, k: string) returns (more: seq<string>)
    requires Ascending(keys) && k !in keys
    ensures Ascending(more) && forall j :: j in more <==> j in keys || j == k
  {
    var at := 0;
    while at < |keys| && Less(keys[at], k)
      invariant 0 <= at <= |keys| && forall i :: 0 <= i < at ==> Less(keys[i], k)
    {
      at := at + 1;
    }
    if at < |keys| {
      LessTotal(keys[at], k);
      forall i | at < i < |keys| ensures Less(k, keys[i]) { LessTransitive(k, keys[at], keys[i]); }
    }
    Inserted(keys, at, k);
    more := keys[..at] + [k] + keys[at..];
  }

  lemma {:induction false} Inserted(keys: seq<string>, at: nat, k: string)
    requires Ascending(keys) && at <= |keys|
    requires forall i :: 0 <= i < at ==> Less(keys[i], k)
    requires forall i :: at <= i < |keys| ==> Less(k, keys[i])
    ensures Ascending(keys[..at] + [k] + keys[at..]) && forall j :: j in keys[..at] + [k] + keys[at..] <==> j in keys || j == k
  {
    assert keys == keys[..at] + keys[at..];
  }

  lemma {:induction false} OrderUnique(a: seq<string>, b: seq<string>)
    requires Ascending(a) && Ascending(b) && forall k :: k in a <==> k in b
    ensures a == b
  {
    assert (a != [] ==> a[0] in b) && (b != [] ==> b[0] in a);
    if a != [] && b != [] {
      if a[0] != b[0] { LessTotal(a[0], b[0]); }
      forall k ensures k in a[1..] <==> k in b[1..] {
        Rest(a, k);
        Rest(b, k);
      }
      OrderUnique(a[1..], b[1..]);
    }
  }

  lemma Rest(a: seq<string>, k: string)
    requires Ascending(a) && a != []
    ensures k in a[1..] <==> k in a && k != a[0]
  {
    LessTotal(a[0], a[0]);
    if k in a[1..] {
      var i :| 0 <= i < |a[1..]| && a[1..][i] == k;
      assert Less(a[0], a[i + 1]);
    }
    if k in a && k != a[0] {
      var i :| 0 <= i < |a| && a[i] == k;
      assert a[1..][i - 1] == k;
    }
  }

  // ---------- JSON Pointers (sections 3 and 4 of RFC 6901) ----------

  function ReplaceAll(s: string, c: char, with_: string): string {
    if s == "" then "" else (if s[0] == c then with_ else [s[0]]) + ReplaceAll(s[1..], c, with_)
  }

  function EscapeToken(token: string): string { ReplaceAll(ReplaceAll(token, '~', "~0"), '/', "~1") }

  function AppendPointer(path: string, token: string): string { path + "/" + EscapeToken(token) }

  function Unescape(s: string): string {
    if s == "" then ""
    else if s[0] == '~' && |s| >= 2 && s[1] == '0' then "~" + Unescape(s[2..])
    else if s[0] == '~' && |s| >= 2 && s[1] == '1' then "/" + Unescape(s[2..])
    else [s[0]] + Unescape(s[1..])
  }

  function Print(tokens: seq<string>): string {
    if tokens == [] then "" else "/" + EscapeToken(tokens[0]) + Print(tokens[1..])
  }

  // The text up to the next slash, and from it on.
  function Reference(s: string): (r: (string, string))
    ensures |r.1| <= |s|
  {
    if s == "" || s[0] == '/' then ("", s) else ([s[0]] + Reference(s[1..]).0, Reference(s[1..]).1)
  }

  function ParsePointer(s: string): Option<seq<string>>
    decreases |s|
  {
    if s == "" then Some([])
    else if s[0] != '/' then None
    else
      var r := Reference(s[1..]);
      match ParsePointer(r.1)
      case None => None
      case Some(rest) => Some([Unescape(r.0)] + rest)
  }

  lemma {:induction false} UnescapeBack(token: string)
    ensures Unescape(EscapeToken(token)) == token && '/' !in EscapeToken(token)
  {
    if token != "" {
      var c, rest := token[0], token[1..];
      UnescapeBack(rest);
      var first := if c == '~' then "~0" else [c];
      var tail := ReplaceAll(rest, '~', "~0");
      ReplaceOn(first, tail, '/', "~1");
      assert first[1..] == "" || (first == "~0" && first[1..] == "0" && "0"[1..] == "");
      var escaped := if c == '~' then "~0" else if c == '/' then "~1" else [c];
      assert ReplaceAll(first, '/', "~1") == escaped;
      var whole := escaped + EscapeToken(rest);
      assert EscapeToken(token) == whole;
      if c == '~' || c == '/' {
        assert whole[2..] == EscapeToken(rest);
      } else {
        assert whole[1..] == EscapeToken(rest);
      }
      assert [c] + rest == token;
    }
  }

  lemma {:induction false} ReplaceOn(a: string, b: string, c: char, with_: string)
    ensures ReplaceAll(a + b, c, with_) == ReplaceAll(a, c, with_) + ReplaceAll(b, c, with_)
  {
    if a != "" {
      assert (a + b)[1..] == a[1..] + b;
      ReplaceOn(a[1..], b, c, with_);
    } else {
      assert a + b == b;
    }
  }

  lemma {:induction false} ReferenceOf(a: string, b: string)
    requires '/' !in a && (b == "" || b[0] == '/')
    ensures Reference(a + b) == (a, b)
  {
    if a != "" {
      assert (a + b)[1..] == a[1..] + b && [a[0]] + a[1..] == a;
      ReferenceOf(a[1..], b);
    } else {
      assert a + b == b;
    }
  }

  lemma {:induction false} PrintEnds(tokens: seq<string>)
    ensures Print(tokens) == "" || Print(tokens)[0] == '/'
  {
  }

  /** The two replacements in turn escape each character once: a tilde as ~0, a slash as ~1. */
  lemma {:induction false} EscapeExactly(token: string)
    ensures token == "" ==> EscapeToken(token) == ""
    ensures token != "" ==> EscapeToken(token) == (if token[0] == '~' then "~0" else if token[0] == '/' then "~1" else [token[0]]) + EscapeToken(token[1..])
  {
    if token != "" {
      var c, rest := token[0], ReplaceAll(token[1..], '~', "~0");
      ReplaceOn(if c == '~' then "~0" else [c], rest, '/', "~1");
      assert "~0"[1..] == "0" && "0"[1..] == "" && [c][1..] == "";
      assert ReplaceAll(if c == '~' then "~0" else [c], '/', "~1") == if c == '~' then "~0" else if c == '/' then "~1" else [c];
    }
  }

  /** Reading a printed pointer gives back its reference tokens, whatever they contain. */
  lemma {:induction false} PointerRoundTrip(tokens: seq<string>)
    ensures ParsePointer(Print(tokens)) == Some(tokens)
  {
    if tokens != [] {
      PointerRoundTrip(tokens[1..]);
      PrintEnds(tokens[1..]);
      PointerHead(tokens[0], Print(tokens[1..]));
      assert [tokens[0]] + tokens[1..] == tokens;
    }
  }

  lemma {:induction false} PointerHead(token: string, rest: string)
    requires (rest == "" || rest[0] == '/') && ParsePointer(rest).Some?
    ensures ParsePointer("/" + EscapeToken(token) + rest) == Some([token] + ParsePointer(rest).value)
  {
    var t := EscapeToken(token);
    UnescapeBack(token);
    ReferenceOf(t, rest);
    assert ("/" + t + rest)[1..] == t + rest;
  }

  // ---------- The comparison ----------

  predicate Numeric(j: Json) { j.Number? || j.Malformed? }

  ghost function FirstMismatch(path: string, a: Json, b: Json): Option<Mismatch>
    decreases a, 1, 0
  {
    var here := Some(Mismatch(path, Some(a), Some(b)));
    if a.Null? || b.Null? then if a.Null? && b.Null? then None else here
    else if Numeric(a) || Numeric(b) then if a.Number? && b.Number? && a.exact == b.exact then None else here
    else if a.Object? || b.Object? then
      if a.Object? && b.Object? then ObjectMismatch(path, a, b, SortedKeys(a.members.Keys + b.members.Keys)) else here
    else if a.Array? || b.Array? then
      if a.Array? && b.Array? then ArrayMismatch(path, a, b, 0) else here
    else if a == b then None
    else here
  }

  ghost function ObjectMismatch(path: string, a: Json, b: Json, keys: seq<string>): Option<Mismatch>
    requires a.Object? && b.Object?
    decreases a, 0, |keys|
  {
    if keys == [] then None
    else
      var k := keys[0];
      var here := AppendPointer(path, k);
      if k in a.members && k in b.members then
        var first := FirstMismatch(here, a.members[k], b.members[k]);
        if first.Some? then first else ObjectMismatch(path, a, b, keys[1..])
      else if k in a.members then Some(Mismatch(here, Some(a.members[k]), None))
      else if k in b.members then Some(Mismatch(here, None, Some(b.members[k])))
      else ObjectMismatch(path, a, b, keys[1..])
  }

  ghost function ArrayMismatch(path: string, a: Json, b: Json, i: nat): Option<Mismatch>
    requires a.Array? && b.Array? && i <= |a.items| && i <= |b.items|
    decreases a, 0, |a.items| - i
  {
    var here := AppendPointer(path, Decimal(i));
    if i < |a.items| && i < |b.items| then
      var first := FirstMismatch(here, a.items[i], b.items[i]);
      if first.Some? then first else ArrayMismatch(path, a, b, i + 1)
    else if i < |a.items| then Some(Mismatch(here, Some(a.items[i]), None))
    else if i < |b.items| then Some(Mismatch(here, None, Some(b.items[i])))
    else None
  }

  // ---------- Equality ----------

  // No malformed number anywhere.
  ghost predicate Clean(j: Json)
    decreases j
  {
    match j
    case Malformed => false
    case Array(items) => forall i :: 0 <= i < |items| ==> Clean(items[i])
    case Object(members) => forall k :: k in members ==> Clean(members[k])
    case _ => true
  }

  /** There is no mismatch exactly when the trees are equal and contain no malformed number. */
  lemma {:induction false} NoMismatchIffEqual(path: string, a: Json, b: Json)
    ensures FirstMismatch(path, a, b) == None <==> a == b && Clean(a)
    decreases a, 1, 0
  {
    if a.Object? && b.Object? {
      var keys := SortedKeys(a.members.Keys + b.members.Keys);
      ObjectEqual(path, a, b, keys);
      MembersEqual(a, b, keys);
    } else if a.Array? && b.Array? {
      ArrayEqual(path, a, b, 0);
      ItemsEqual(a, b);
    }
  }

  lemma {:induction false} MembersEqual(a: Json, b: Json, keys: seq<string>)
    requires a.Object? && b.Object? && keys == SortedKeys(a.members.Keys + b.members.Keys)
    ensures (forall k :: k in keys ==> SameMember(a, b, k)) <==> a == b && Clean(a)
  {
    SortedKeysOf(a.members.Keys + b.members.Keys);
    if forall k :: k in keys ==> SameMember(a, b, k) {
      forall k ensures k in a.members <==> k in b.members {
        assert k in keys <==> k in a.members || k in b.members;
      }
      assert a.members == b.members;
    }
  }

  lemma {:induction false} ItemsEqual(a: Json, b: Json)
    requires a.Array? && b.Array?
    ensures (|a.items| == |b.items| && forall j :: 0 <= j < |a.items| ==> a.items[j] == b.items[j] && Clean(a.items[j])) <==> a == b && Clean(a)
  {
  }

  ghost predicate SameMember(a: Json, b: Json, k: string)
    requires a.Object? && b.Object?
  {
    (k in a.members <==> k in b.members) && (k in a.members && k in b.members ==> a.members[k] == b.members[k] && Clean(a.members[k]))
  }

  lemma {:induction false} ObjectEqual(path: string, a: Json, b: Json, keys: seq<string>)
    requires a.Object? && b.Object?
    ensures ObjectMismatch(path, a, b, keys) == None <==> forall k :: k in keys ==> SameMember(a, b, k)
    decreases a, 0, |keys|
  {
    if keys != [] {
      var k := keys[0];
      ObjectEqual(path, a, b, keys[1..]);
      if k in a.members && k in b.members {
        NoMismatchIffEqual(AppendPointer(path, k), a.members[k], b.members[k]);
      }
      assert k in keys && forall j :: j in keys <==> j == k || j in keys[1..];
      assert ObjectMismatch(path, a, b, keys) == None <==> SameMember(a, b, k) && ObjectMismatch(path, a, b, keys[1..]) == None;
    }
  }

  lemma {:induction false} ArrayEqual(path: string, a: Json, b: Json, i: nat)
    requires a.Array? && b.Array? && i <= |a.items| && i <= |b.items|
    ensures ArrayMismatch(path, a, b, i) == None <==>
      |a.items| == |b.items| && forall j :: i <= j < |a.items| ==> a.items[j] == b.items[j] && Clean(a.items[j])
    decreases a, 0, |a.items| - i
  {
    if i < |a.items| && i < |b.items| {
      NoMismatchIffEqual(AppendPointer(path, Decimal(i)), a.items[i], b.items[i]);
      ArrayEqual(path, a, b, i + 1);
    }
  }

  // ---------- Where the first difference is ----------

  // An array index is written without leading zeros (section 4 of RFC 6901).
  function Index(token: string): Option<nat> {
    if token != "" && AllDigits(token) && Decimal(Value(token)) == token then Some(Value(token)) else None
  }

  function At(j: Json, tokens: seq<string>): Option<Json> {
    if tokens == [] then Some(j)
    else match j
      case Object(members) => if tokens[0] in members then At(members[tokens[0]], tokens[1..]) else None
      case Array(items) => (match Index(tokens[0])
        case Some(i) => if i < |items| then At(items[i], tokens[1..]) else None
        case None => None)
      case _ => None
  }

  ghost predicate SameItem(a: Json, b: Json, i: nat)
    requires a.Array? && b.Array? && i < |a.items| && i < |b.items|
  {
    a.items[i] == b.items[i] && Clean(a.items[i])
  }

  // The tokens lead to the first difference when everything earlier in the walk, members in key
  // order and items in index order, is the same.
  ghost predicate First(a: Json, b: Json, tokens: seq<string>)
    decreases |tokens|
  {
    if tokens == [] then !(a.Object? && b.Object?) && !(a.Array? && b.Array?) && !(a == b && Clean(a))
    else if a.Object? && b.Object? then
      var t := tokens[0];
      && (t in a.members || t in b.members)
      && (forall k :: (k in a.members || k in b.members) && Less(k, t) ==> SameMember(a, b, k))
      && (if t in a.members && t in b.members then First(a.members[t], b.members[t], tokens[1..]) else |tokens| == 1)
    else if a.Array? && b.Array? && Index(tokens[0]).Some? then
      var i := Index(tokens[0]).value;
      && i <= |a.items| && i <= |b.items|
      && (forall j :: 0 <= j < i ==> SameItem(a, b, j))
      && (if i < |a.items| && i < |b.items| then First(a.items[i], b.items[i], tokens[1..]) else |a.items| != |b.items| && |tokens| == 1)
    else false
  }

  lemma {:induction false} FirstDiffers(a: Json, b: Json, tokens: seq<string>)
    requires First(a, b, tokens)
    ensures !(a == b && Clean(a))
    decreases |tokens|
  {
    if tokens != [] {
      if a.Object? && b.Object? && tokens[0] in a.members && tokens[0] in b.members {
        FirstDiffers(a.members[tokens[0]], b.members[tokens[0]], tokens[1..]);
      } else if a.Array? && b.Array? && Index(tokens[0]).value < |a.items| && Index(tokens[0]).value < |b.items| {
        FirstDiffers(a.items[Index(tokens[0]).value], b.items[Index(tokens[0]).value], tokens[1..]);
      }
    }
  }

  // There is at most one first difference.
  lemma {:induction false} FirstUnique(a: Json, b: Json, s: seq<string>, t: seq<string>)
    requires First(a, b, s) && First(a, b, t)
    ensures s == t
    decreases |s|
  {
    if s != [] && t != [] {
      if a.Object? && b.Object? {
        FirstMember(a, b, s, t);
      } else {
        FirstItem(a, b, s, t);
      }
      assert s == [s[0]] + s[1..] && t == [t[0]] + t[1..];
      if a.Object? && b.Object? && s[0] in a.members && s[0] in b.members {
        FirstUnique(a.members[s[0]], b.members[s[0]], s[1..], t[1..]);
      } else if a.Array? && b.Array? && Index(s[0]).value < |a.items| && Index(s[0]).value < |b.items| {
        FirstUnique(a.items[Index(s[0]).value], b.items[Index(s[0]).value], s[1..], t[1..]);
      }
    }
  }

  lemma {:induction false} FirstMember(a: Json, b: Json, s: seq<string>, t: seq<string>)
    requires First(a, b, s) && First(a, b, t) && s != [] && t != [] && a.Object? && b.Object?
    ensures s[0] == t[0]
  {
    LessTotal(s[0], t[0]);
    if s[0] in a.members && s[0] in b.members {
      FirstDiffers(a.members[s[0]], b.members[s[0]], s[1..]);
    }
    if t[0] in a.members && t[0] in b.members {
      FirstDiffers(a.members[t[0]], b.members[t[0]], t[1..]);
    }
  }

  lemma {:induction false} FirstItem(a: Json, b: Json, s: seq<string>, t: seq<string>)
    requires First(a, b, s) && First(a, b, t) && s != [] && t != [] && a.Array? && b.Array?
    ensures s[0] == t[0]
  {
    var i, j := Index(s[0]).value, Index(t[0]).value;
    if i < |a.items| && i < |b.items| {
      FirstDiffers(a.items[i], b.items[i], s[1..]);
    }
    if j < |a.items| && j < |b.items| {
      FirstDiffers(a.items[j], b.items[j], t[1..]);
    }
    assert i < j ==> SameItem(a, b, i);
    assert j < i ==> SameItem(a, b, j);
  }

  lemma {:induction false} IndexOf(i: nat)
    ensures Index(Decimal(i)) == Some(i)
  {
    DecimalValue(i);
  }

  lemma {:induction false} PointerStep(path: string, token: string, tokens: seq<string>)
    ensures AppendPointer(path, token) + Print(tokens) == path + Print([token] + tokens)
  {
    assert ([token] + tokens)[1..] == tokens;
  }

  // A mismatch found under a path: where it is, what is there, and that nothing differs earlier.
  ghost predicate Locates(path: string, a: Json, b: Json, m: Mismatch, tokens: seq<string>) {
    m.path == path + Print(tokens) && At(a, tokens) == m.generated && At(b, tokens) == m.profile && First(a, b, tokens)
  }

  lemma {:induction false} MemberLocates(path: string, a: Json, b: Json, k: string, m: Mismatch, rest: seq<string>)
    requires a.Object? && b.Object? && k in a.members && k in b.members
    requires Locates(AppendPointer(path, k), a.members[k], b.members[k], m, rest)
    requires forall j :: (j in a.members || j in b.members) && Less(j, k) ==> SameMember(a, b, j)
    ensures Locates(path, a, b, m, [k] + rest)
  {
    PointerStep(path, k, rest);
    assert ([k] + rest)[1..] == rest;
  }

  lemma {:induction false} MemberMissing(path: string, a: Json, b: Json, k: string, m: Mismatch)
    requires a.Object? && b.Object? && (k in a.members <==> k !in b.members)
    requires m == Mismatch(AppendPointer(path, k), if k in a.members then Some(a.members[k]) else None, if k in b.members then Some(b.members[k]) else None)
    requires forall j :: (j in a.members || j in b.members) && Less(j, k) ==> SameMember(a, b, j)
    ensures Locates(path, a, b, m, [k])
  {
    PointerStep(path, k, []);
    assert [k] + [] == [k] && [k][1..] == [] && AppendPointer(path, k) + Print([]) == AppendPointer(path, k);
  }

  lemma {:induction false} ItemLocates(path: string, a: Json, b: Json, i: nat, m: Mismatch, rest: seq<string>)
    requires a.Array? && b.Array? && i < |a.items| && i < |b.items|
    requires Locates(AppendPointer(path, Decimal(i)), a.items[i], b.items[i], m, rest)
    requires forall j :: 0 <= j < i ==> SameItem(a, b, j)
    ensures Locates(path, a, b, m, [Decimal(i)] + rest)
  {
    PointerStep(path, Decimal(i), rest);
    ItemStep(a, b, i, rest);
  }

  lemma {:induction false} ItemMissing(path: string, a: Json, b: Json, i: nat, m: Mismatch)
    requires a.Array? && b.Array? && i <= |a.items| && i <= |b.items| && (i == |a.items| || i == |b.items|) && |a.items| != |b.items|
    requires m == Mismatch(AppendPointer(path, Decimal(i)), if i < |a.items| then Some(a.items[i]) else None, if i < |b.items| then Some(b.items[i]) else None)
    requires forall j :: 0 <= j < i ==> SameItem(a, b, j)
    ensures Locates(path, a, b, m, [Decimal(i)])
  {
    PointerStep(path, Decimal(i), []);
    ItemEnd(a, b, i);
    assert [Decimal(i)] + [] == [Decimal(i)] && AppendPointer(path, Decimal(i)) + Print([]) == AppendPointer(path, Decimal(i));
  }

  lemma {:induction false} HereLocates(path: string, a: Json, b: Json)
    requires !(a.Object? && b.Object?) && !(a.Array? && b.Array?) && FirstMismatch(path, a, b).Some?
    ensures Locates(path, a, b, FirstMismatch(path, a, b).value, [])
  {
    NoMismatchIffEqual(path, a, b);
    assert FirstMismatch(path, a, b).value == Mismatch(path, Some(a), Some(b));
    assert path + Print([]) == path;
  }

  /** A mismatch is recorded at the first difference, with a pointer that evaluates to the recorded
      value in both trees. */
  lemma {:induction false} FirstDifference(path: string, a: Json, b: Json) returns (tokens: seq<string>)
    requires FirstMismatch(path, a, b).Some?
    ensures var m := FirstMismatch(path, a, b).value;
      m.path == path + Print(tokens) && At(a, tokens) == m.generated && At(b, tokens) == m.profile
    ensures First(a, b, tokens)
  {
    tokens := Locate(path, a, b);
  }

  lemma {:induction false} Locate(path: string, a: Json, b: Json) returns (tokens: seq<string>)
    requires FirstMismatch(path, a, b).Some?
    ensures Locates(path, a, b, FirstMismatch(path, a, b).value, tokens)
    decreases a, 1, 0
  {
    if a.Object? && b.Object? {
      var keys := SortedKeys(a.members.Keys + b.members.Keys);
      AllKeys(a, b, keys);
      assert keys[0..] == keys && FirstMismatch(path, a, b) == ObjectMismatch(path, a, b, keys);
      tokens := FirstInObject(path, a, b, keys, 0);
    } else if a.Array? && b.Array? {
      tokens := FirstInArray(path, a, b, 0);
    } else {
      tokens := [];
      HereLocates(path, a, b);
    }
  }

  // The keys the comparison walks through, in order.
  ghost predicate Walks(a: Json, b: Json, keys: seq<string>)
    requires a.Object? && b.Object?
  {
    Ascending(keys) && forall k :: k in keys <==> k in a.members || k in b.members
  }

  lemma {:induction false} AllKeys(a: Json, b: Json, keys: seq<string>)
    requires a.Object? && b.Object? && keys == SortedKeys(a.members.Keys + b.members.Keys)
    ensures Walks(a, b, keys)
  {
    SortedKeysOf(a.members.Keys + b.members.Keys);
  }

  lemma {:induction false} FirstInObject(path: string, a: Json, b: Json, keys: seq<string>, i: nat) returns (tokens: seq<string>)
    requires a.Object? && b.Object? && Walks(a, b, keys) && i <= |keys| && ObjectMismatch(path, a, b, keys[i..]).Some?
    requires forall j :: 0 <= j < i ==> SameMember(a, b, keys[j])
    ensures Locates(path, a, b, ObjectMismatch(path, a, b, keys[i..]).value, tokens)
    decreases a, 0, |keys| - i
  {
    var k, here := keys[i], AppendPointer(path, keys[i]);
    assert keys[i..][0] == k && keys[i..][1..] == keys[i + 1..];
    EarlierDone(a, b, keys, i);
    if k in a.members && k in b.members {
      if FirstMismatch(here, a.members[k], b.members[k]).Some? {
        var rest := Locate(here, a.members[k], b.members[k]);
        MemberLocates(path, a, b, k, FirstMismatch(here, a.members[k], b.members[k]).value, rest);
        tokens := [k] + rest;
      } else {
        NoMismatchIffEqual(here, a.members[k], b.members[k]);
        tokens := FirstInObject(path, a, b, keys, i + 1);
      }
    } else {
      MemberMissing(path, a, b, k, ObjectMismatch(path, a, b, keys[i..]).value);
      tokens := [k];
    }
  }

  lemma {:induction false} EarlierDone(a: Json, b: Json, keys: seq<string>, i: nat)
    requires a.Object? && b.Object? && Walks(a, b, keys) && i < |keys|
    requires forall j :: 0 <= j < i ==> SameMember(a, b, keys[j])
    ensures keys[i] in a.members || keys[i] in b.members
    ensures forall k :: (k in a.members || k in b.members) && Less(k, keys[i]) ==> SameMember(a, b, k)
  {
    assert keys[i] in keys;
    forall k | (k in a.members || k in b.members) && Less(k, keys[i]) ensures SameMember(a, b, k) {
      assert k in keys;
      var j :| 0 <= j < |keys| && keys[j] == k;
      LessTotal(k, keys[i]);
      assert j < i;
    }
  }

  lemma {:induction false} FirstInArray(path: string, a: Json, b: Json, i: nat) returns (tokens: seq<string>)
    requires a.Array? && b.Array? && i <= |a.items| && i <= |b.items| && ArrayMismatch(path, a, b, i).Some?
    requires forall j :: 0 <= j < i ==> SameItem(a, b, j)
    ensures Locates(path, a, b, ArrayMismatch(path, a, b, i).value, tokens)
    decreases a, 0, |a.items| - i
  {
    var here := AppendPointer(path, Decimal(i));
    if i < |a.items| && i < |b.items| {
      if FirstMismatch(here, a.items[i], b.items[i]).Some? {
        var rest := Locate(here, a.items[i], b.items[i]);
        ItemLocates(path, a, b, i, FirstMismatch(here, a.items[i], b.items[i]).value, rest);
        tokens := [Decimal(i)] + rest;
      } else {
        NoMismatchIffEqual(here, a.items[i], b.items[i]);
        tokens := FirstInArray(path, a, b, i + 1);
      }
    } else {
      ItemMissing(path, a, b, i, ArrayMismatch(path, a, b, i).value);
      tokens := [Decimal(i)];
    }
  }

  lemma {:induction false} ItemStep(a: Json, b: Json, i: nat, rest: seq<string>)
    requires a.Array? && b.Array? && i < |a.items| && i < |b.items| && First(a.items[i], b.items[i], rest)
    requires forall j :: 0 <= j < i ==> SameItem(a, b, j)
    ensures var tokens := [Decimal(i)] + rest;
      First(a, b, tokens) && At(a, tokens) == At(a.items[i], rest) && At(b, tokens) == At(b.items[i], rest)
  {
    IndexOf(i);
    assert ([Decimal(i)] + rest)[1..] == rest;
  }

  lemma {:induction false} ItemEnd(a: Json, b: Json, i: nat)
    requires a.Array? && b.Array? && i <= |a.items| && i <= |b.items| && (i == |a.items| || i == |b.items|) && |a.items| != |b.items|
    requires forall j :: 0 <= j < i ==> SameItem(a, b, j)
    ensures var tokens := [Decimal(i)];
      && First(a, b, tokens)
      && At(a, tokens) == (if i < |a.items| then Some(a.items[i]) else None)
      && At(b, tokens) == (if i < |b.items| then Some(b.items[i]) else None)
  {
    IndexOf(i);
    assert [Decimal(i)][1..] == [];
  }

  // A tree with a malformed number is not even equal to itself.
  lemma {:induction false} ReflexiveIffClean(j: Json)
    ensures FirstMismatch("", j, j) == None <==> Clean(j)
  {
    NoMismatchIffEqual("", j, j);
  }
}
