/** The input sanitisers of src/utils/sanitization.ts: regular-expression
  * replacements over strings, written out as recursive functions, and the
  * loop that sanitises every field of a form object. */
module Sanitization {
  import opened Wrappers
  import opened JsValues
  import opened Text
  import Grouping
  import Numbers

  // ---------------------------------------------------------------------
  // Character classes
  // ---------------------------------------------------------------------

  /** The class `[<>"']`. */
  predicate IsDangerous(c: char) { c == '<' || c == '>' || c == '"' || c == '\'' }

  /** The class `[\d.,]`. */
  predicate IsNumberChar(c: char) { Numbers.IsDigit(c) || c == '.' || c == ',' }

  /** The class `[a-zA-Z0-9\sáàâãéêíóôõúçÁÀÂÃÉÊÍÓÔÕÚÇ]`. */
  predicate IsAlphanumeric(c: char)
  {
    ('a' <= c <= 'z') || ('A' <= c <= 'Z') || Numbers.IsDigit(c) || IsWhite(c) ||
    c in "áàâãéêíóôõúçÁÀÂÃÉÊÍÓÔÕÚÇ"
  }

  /** The classes whose members a `replace(/[...]/g, '')` deletes. */
  datatype CharClass = Control | Dangerous | White | NonNumber | NonAlphanumeric

  predicate InClass(c: char, k: CharClass)
  {
    match k
    case Control => IsControl(c)
    case Dangerous => IsDangerous(c)
    case White => IsWhite(c)
    case NonNumber => !IsNumberChar(c)
    case NonAlphanumeric => !IsAlphanumeric(c)
  }

  // ---------------------------------------------------------------------
  // The replacements
  // ---------------------------------------------------------------------

  /** `s.replace(/[...]/g, '')`: every character of the class is deleted and
    * the others keep their order. */
  function Remove(s: string, k: CharClass): (r: string)
    ensures |r| <= |s|
    ensures forall i :: 0 <= i < |r| ==> !InClass(r[i], k)
  {
    if s == [] then []
    else
      var rest := Remove(s[1..], k);
      if InClass(s[0], k) then rest
      else
        assert forall i :: 1 <= i < |[s[0]] + rest| ==> ([s[0]] + rest)[i] == rest[i - 1];
        [s[0]] + rest
  }

  /** A string without members of the class is left as it is. */
  lemma {:induction false} RemoveNothing(s: string, k: CharClass)
    requires forall i :: 0 <= i < |s| ==> !InClass(s[i], k)
    ensures Remove(s, k) == s
  {
    if s != [] {
      RemoveNothing(s[1..], k);
      assert !InClass(s[0], k) && s == [s[0]] + s[1..];
    }
  }

  /** Deleting characters keeps every other class absent and brings in no
    * character. */
  lemma {:induction false} RemoveKeeps(s: string, k: CharClass, other: CharClass)
    requires forall i :: 0 <= i < |s| ==> !InClass(s[i], other)
    ensures forall i :: 0 <= i < |Remove(s, k)| ==> !InClass(Remove(s, k)[i], other)
  {
    if s != [] {
      RemoveKeeps(s[1..], k, other);
      var rest := Remove(s[1..], k);
      assert !InClass(s[0], other);
      assert forall i :: 1 <= i < |[s[0]] + rest| ==> ([s[0]] + rest)[i] == rest[i - 1];
    }
  }

  lemma {:induction false} RemoveFrom(s: string, k: CharClass)
    ensures forall c :: c in Remove(s, k) ==> c in s
  {
    if s != [] {
      RemoveFrom(s[1..], k);
      assert forall c :: c in s[1..] ==> c in s;
    }
  }

  /** `s.replace(/<[^>]*>/g, '')`: each `<` with a `>` somewhere after it is
    * removed together with everything up to the first such `>`. */
  function StripTags(s: string): (r: string)
    ensures |r| <= |s|
    ensures '<' !in s ==> r == s
    ensures forall i, j :: 0 <= i < j < |r| && r[i] == '<' ==> r[j] != '>'
    decreases |s|
  {
    if s == [] then []
    else if s[0] == '<' then
      match IndexOfFrom(s, '>', 1)
      case Some(k) => StripTags(s[k + 1..])
      case None => s
    else
      var rest := StripTags(s[1..]);
      assert forall j :: 1 <= j < |[s[0]] + rest| ==> ([s[0]] + rest)[j] == rest[j - 1];
      [s[0]] + rest
  }

  lemma {:induction false} StripTagsFrom(s: string)
    ensures forall c :: c in StripTags(s) ==> c in s
    decreases |s|
  {
    if s != [] {
      if s[0] == '<' {
        match IndexOfFrom(s, '>', 1)
        case Some(k) =>
          StripTagsFrom(s[k + 1..]);
          assert forall c :: c in s[k + 1..] ==> c in s;
        case None =>
      } else {
        StripTagsFrom(s[1..]);
        assert forall c :: c in s[1..] ==> c in s;
      }
    }
  }

  /** No two white-space characters are adjacent. */
  predicate NoDoubleWhite(s: string)
  {
    forall i :: 0 <= i < |s| - 1 ==> !(IsWhite(s[i]) && IsWhite(s[i + 1]))
  }

  /** `s.replace(/\s+/g, ' ')`: every run of white space becomes one space. */
  function CollapseWhite(s: string): (r: string)
    ensures |r| <= |s|
    ensures |s| > 0 <==> |r| > 0
    ensures |s| > 0 ==> (IsWhite(r[0]) <==> IsWhite(s[0]))
    ensures NoDoubleWhite(r)
    decreases |s|
  {
    if s == [] then []
    else if IsWhite(s[0]) then
      var rest := CollapseWhite(TrimStart(s));
      assert forall i :: 1 <= i < |" " + rest| ==> (" " + rest)[i] == rest[i - 1];
      " " + rest
    else
      var rest := CollapseWhite(s[1..]);
      assert forall i :: 1 <= i < |[s[0]] + rest| ==> ([s[0]] + rest)[i] == rest[i - 1];
      [s[0]] + rest
  }

  /** Collapsing white space brings in only spaces: a class the space does
    * not belong to stays absent. */
  lemma {:induction false} CollapseKeeps(s: string, k: CharClass)
    requires !InClass(' ', k)
    requires forall i :: 0 <= i < |s| ==> !InClass(s[i], k)
    ensures forall i :: 0 <= i < |CollapseWhite(s)| ==> !InClass(CollapseWhite(s)[i], k)
    decreases |s|
  {
    if s != [] {
      var t := if IsWhite(s[0]) then TrimStart(s) else s[1..];
      assert forall i :: 0 <= i < |t| ==> t[i] == s[|s| - |t| + i];
      CollapseKeeps(t, k);
      var rest := CollapseWhite(t);
      var head := if IsWhite(s[0]) then ' ' else s[0];
      assert CollapseWhite(s) == [head] + rest;
      assert forall i :: 1 <= i < |[head] + rest| ==> ([head] + rest)[i] == rest[i - 1];
    }
  }

  lemma {:induction false} CollapseFrom(s: string)
    ensures forall c :: c in CollapseWhite(s) ==> c in s || c == ' '
    decreases |s|
  {
    if s != [] {
      var t := if IsWhite(s[0]) then TrimStart(s) else s[1..];
      assert t == s[|s| - |t|..];
      CollapseFrom(t);
      assert forall c :: c in t ==> c in s;
    }
  }

  /** Every white-space character is a plain space and none is doubled:
    * collapsing white space changes nothing. */
  lemma {:induction false} CollapseClean(s: string)
    requires NoDoubleWhite(s)
    requires forall i :: 0 <= i < |s| && IsWhite(s[i]) ==> s[i] == ' '
    ensures CollapseWhite(s) == s
  {
    if s != [] {
      CollapseClean(s[1..]);
      if IsWhite(s[0]) {
        assert TrimStart(s) == TrimStart(s[1..]);
        if |s| > 1 { assert !IsWhite(s[1]); }
        assert TrimStart(s[1..]) == s[1..];
        assert s == " " + s[1..];
      } else {
        assert s == [s[0]] + s[1..];
      }
    }
  }

  /** A string that neither starts nor ends with white space is its own
    * trim. */
  lemma {:induction false} TrimmedTrim(s: string)
    requires |s| > 0 ==> !IsWhite(s[0]) && !IsWhite(s[|s| - 1])
    ensures Trim(s) == s
  {
  }

  lemma {:induction false} TrimFrom(s: string)
    ensures forall c :: c in Trim(s) ==> c in s
  {
    TrimShape(s);
  }

  // ---------------------------------------------------------------------
  // sanitizeString
  // ---------------------------------------------------------------------

  /** What `sanitizeString` guarantees of its output. */
  predicate Clean(s: string)
  {
    (forall i :: 0 <= i < |s| ==> !IsDangerous(s[i]) && !IsControl(s[i])) && NoDoubleWhite(s)
  }

  /** The string handed to the final white-space collapse. */
  function Stripped(s: string): (r: string)
    ensures forall i :: 0 <= i < |r| ==> !IsDangerous(r[i]) && !IsControl(r[i])
  {
    var noControl := Remove(StripTags(Trim(s)), Control);
    RemoveKeeps(noControl, Dangerous, Control);
    Remove(noControl, Dangerous)
  }

  /** `sanitizeString(input)`: anything but a string gives `''`. */
  function SanitizeString(v: Value): (r: string)
    ensures !v.Str? ==> r == ""
    ensures Clean(r)
  {
    match v
    case Str(s) =>
      var t := Stripped(s);
      CollapseKeeps(t, Control);
      CollapseKeeps(t, Dangerous);
      CollapseWhite(t)
    case _ => ""
  }

  /** The output holds characters of the input and spaces only. */
  lemma {:induction false} SanitizeStringFrom(s: string)
    ensures forall c :: c in SanitizeString(Str(s)) ==> c in s || c == ' '
  {
    var t := StripTags(Trim(s));
    TrimFrom(s);
    StripTagsFrom(Trim(s));
    RemoveFrom(t, Control);
    RemoveFrom(Remove(t, Control), Dangerous);
    CollapseFrom(Stripped(s));
  }

  /** The form `sanitizeString` leaves a string in when nothing has to be
    * removed: trimmed, single plain spaces, nothing dangerous. */
  predicate SanitizedForm(s: string)
  {
    Clean(s) && (|s| > 0 ==> !IsWhite(s[0]) && !IsWhite(s[|s| - 1])) &&
    forall i :: 0 <= i < |s| && IsWhite(s[i]) ==> s[i] == ' '
  }

  /** A string already in that form comes back unchanged. */
  lemma {:induction false} SanitizeCleanString(s: string)
    requires SanitizedForm(s)
    ensures SanitizeString(Str(s)) == s
  {
    TrimmedTrim(s);
    assert '<' !in s;
    RemoveNothing(s, Control);
    RemoveNothing(s, Dangerous);
    CollapseClean(s);
  }

  lemma {:induction false} SanitizeStringIs(s: string)
    ensures SanitizeString(Str(s)) == CollapseWhite(Stripped(s))
  {
  }

  /** Markup is removed together with everything between its angle
    * brackets. */
  lemma {:induction false} SanitizeDropsTag(a: string, tag: string, b: string)
    requires SanitizedForm(a + b) && '>' !in tag
    ensures SanitizeString(Str(a + "<" + tag + ">" + b)) == a + b
  {
    var s := a + "<" + tag + ">" + b;
    NoLtAround(a, b);
    TagBetweenTrimmed(a, tag, b);
    StripTag(a, tag, b);
    TrimmedTrim(a + b);
    assert '<' !in a + b;
    assert StripTags(Trim(s)) == StripTags(Trim(a + b));
    assert Stripped(s) == Stripped(a + b);
    SanitizeStringIs(s);
    SanitizeStringIs(a + b);
    SanitizeCleanString(a + b);
  }

  lemma {:induction false} NoLtAround(a: string, b: string)
    requires Clean(a + b)
    ensures '<' !in a && '<' !in b
  {
    assert forall i :: 0 <= i < |a| ==> a[i] == (a + b)[i];
    assert forall i :: 0 <= i < |b| ==> b[i] == (a + b)[|a| + i];
  }

  lemma {:induction false} TagBetweenTrimmed(a: string, tag: string, b: string)
    requires SanitizedForm(a + b)
    ensures Trim(a + "<" + tag + ">" + b) == a + "<" + tag + ">" + b
  {
    var s := a + "<" + tag + ">" + b;
    if a != [] { assert s[0] == (a + b)[0]; } else { assert s[0] == '<'; }
    if b != [] { assert s[|s| - 1] == (a + b)[|a + b| - 1]; } else { assert s[|s| - 1] == '>'; }
    TrimmedTrim(s);
  }

  /** One tag between two stretches of text without `<`. */
  lemma {:induction false} StripTag(a: string, tag: string, b: string)
    requires '<' !in a && '<' !in b && '>' !in tag
    ensures StripTags(a + "<" + tag + ">" + b) == a + b
  {
    var u := "<" + tag + ">" + b;
    assert a + "<" + tag + ">" + b == a + u;
    StripPrefix(a, u);
    var k := |tag| + 1;
    assert u[0] == '<' && u[k] == '>';
    assert forall j :: 1 <= j < k ==> u[j] == tag[j - 1];
    assert IndexOfFrom(u, '>', 1) == Some(k);
    assert u[k + 1..] == b;
  }

  /** A character other than `<` passes through the tag stripper. */
  lemma {:induction false} StripCons(c: char, s: string)
    requires c != '<'
    ensures StripTags([c] + s) == [c] + StripTags(s)
  {
    assert ([c] + s)[1..] == s;
  }

  /** A prefix without `<` passes through the tag stripper untouched. */
  lemma {:induction false} StripPrefix(a: string, u: string)
    requires '<' !in a
    ensures StripTags(a + u) == a + StripTags(u)
  {
    if a != [] {
      var c, rest := a[0], a[1..];
      assert c in a;
      assert a + u == [c] + (rest + u);
      StripCons(c, rest + u);
      StripPrefix(rest, u);
      assert a == [c] + rest;
      AppendAssoc([c], rest, StripTags(u));
    } else {
      assert a + u == u;
    }
  }

  // ---------------------------------------------------------------------
  // sanitizeEmail
  // ---------------------------------------------------------------------

  /** `sanitizeEmail(email)` */
  function SanitizeEmail(v: Value): (r: string)
    ensures !v.Str? ==> r == ""
    ensures forall i :: 0 <= i < |r| ==> !IsWhite(r[i]) && !IsControl(r[i])
    ensures IsLowerCase(r)
  {
    match v
    case Str(s) =>
      var lowered := ToLower(Trim(s));
      ToLowerIsLowerCase(Trim(s));
      var noControl := Remove(lowered, Control);
      RemoveLowerCase(lowered, Control);
      RemoveLowerCase(noControl, White);
      RemoveKeeps(noControl, White, Control);
      Remove(noControl, White)
    case _ => ""
  }

  lemma {:induction false} RemoveLowerCase(s: string, k: CharClass)
    requires IsLowerCase(s)
    ensures IsLowerCase(Remove(s, k))
  {
    if s != [] {
      RemoveLowerCase(s[1..], k);
      var rest := Remove(s[1..], k);
      assert Lower(s[0]) == s[0];
      assert forall i :: 1 <= i < |[s[0]] + rest| ==> ([s[0]] + rest)[i] == rest[i - 1];
    }
  }

  /** An address already trimmed of nothing, lowercase and free of white
    * space and control characters is unchanged. */
  lemma {:induction false} SanitizeCleanEmail(s: string)
    requires IsLowerCase(s)
    requires forall i :: 0 <= i < |s| ==> !IsWhite(s[i]) && !IsControl(s[i])
    ensures SanitizeEmail(Str(s)) == s
  {
    TrimmedTrim(s);
    LowerCaseUnchanged(s);
    assert forall i :: 0 <= i < |s| ==> !InClass(s[i], Control);
    RemoveNothing(s, Control);
    assert forall i :: 0 <= i < |s| ==> !InClass(s[i], White);
    RemoveNothing(s, White);
  }

  lemma {:induction false} LowerCaseUnchanged(s: string)
    requires IsLowerCase(s)
    ensures ToLower(s) == s
  {
  }

  // ---------------------------------------------------------------------
  // sanitizeNumber and sanitizeCurrency
  // ---------------------------------------------------------------------

  /** `s.replace(a, b)` with a one-character string pattern: only the first
    * occurrence is replaced. */
  function ReplaceFirst(s: string, a: char, b: char): (r: string)
    ensures |r| == |s|
  {
    if s == [] then []
    else if s[0] == a then [b] + s[1..]
    else [s[0]] + ReplaceFirst(s[1..], a, b)
  }

  lemma {:induction false} ReplaceFirstSpec(s: string, a: char, b: char)
    ensures a !in s ==> ReplaceFirst(s, a, b) == s
    ensures a in s ==> ReplaceFirst(s, a, b) == s[Grouping.FirstIndex(s, a) := b]
  {
    if s != [] {
      ReplaceFirstSpec(s[1..], a, b);
      if s[0] == a {
        Grouping.FirstIndexUnique(s, a, 0);
      } else {
        assert s == [s[0]] + s[1..];
        if a in s {
          assert a in s[1..];
          var k := Grouping.FirstIndex(s[1..], a);
          assert s[k + 1] == a;
          assert s[..k + 1] == [s[0]] + s[1..][..k];
          Grouping.FirstIndexUnique(s, a, k + 1);
        }
      }
    }
  }

  /** `sanitizeNumber(input)`: a number prints as itself; a string keeps its
    * digits, dots and commas, with the first comma turned into a dot. */
  function SanitizeNumber(v: Value): (r: string)
    ensures v.Num? ==> r == Numbers.IntToString(v.number)
    ensures !v.Num? && !v.Str? ==> r == ""
    ensures v.Str? ==> |r| == |Remove(v.text, NonNumber)|
  {
    match v
    case Num(n) => Numbers.IntToString(n)
    case Str(s) => ReplaceFirst(Remove(s, NonNumber), ',', '.')
    case _ => ""
  }

  /** A string input keeps exactly its digits, dots and commas, except that
    * the first comma becomes the decimal dot. */
  lemma {:induction false} SanitizeNumberSpec(s: string)
    ensures var kept := Remove(s, NonNumber);
      (',' !in kept ==> SanitizeNumber(Str(s)) == kept) &&
      (',' in kept ==> SanitizeNumber(Str(s)) == kept[Grouping.FirstIndex(kept, ',') := '.'])
    ensures forall i :: 0 <= i < |SanitizeNumber(Str(s))| ==> IsNumberChar(SanitizeNumber(Str(s))[i])
  {
    ReplaceFirstSpec(Remove(s, NonNumber), ',', '.');
  }

  /** `s` with every `c` removed. */
  function Without(s: string, c: char): (r: string)
    ensures Count(r, c) == 0
  {
    if s == [] then []
    else
      var rest := Without(s[1..], c);
      if s[0] == c then rest
      else
        assert ([s[0]] + rest)[1..] == rest;
        [s[0]] + rest
  }

  /** Joining the pieces of a split with nothing drops the separators. */
  lemma {:induction false} JoinSplitWithout(s: string, c: char)
    ensures Join(Split(s, c), []) == Without(s, c)
  {
    if s != [] {
      JoinSplitWithout(s[1..], c);
      var rest := Split(s[1..], c);
      if s[0] == c {
        JoinEmptyHead(rest, []);
        assert [] + Join(rest, []) == Join(rest, []);
      } else {
        JoinCons(s[0], rest, []);
      }
    }
  }

  /** `sanitizeCurrency(input)` */
  function SanitizeCurrency(v: Value): (r: string)
    ensures Count(r, '.') <= 1
  {
    var n := SanitizeNumber(v);
    var parts := Split(n, '.');
    if |parts| > 2 then
      CountJoin(parts[1..], '.');
      CountAppend(parts[0] + ".", Join(parts[1..], ""), '.');
      CountAppend(parts[0], ".", '.');
      parts[0] + "." + Join(parts[1..], "")
    else n
  }

  /** An amount with two or more dots keeps the first and loses the others;
    * one with at most one dot is left as it is. */
  lemma {:induction false} SanitizeCurrencySpec(v: Value)
    ensures Count(SanitizeNumber(v), '.') <= 1 ==> SanitizeCurrency(v) == SanitizeNumber(v)
    ensures var n := SanitizeNumber(v);
      Count(n, '.') >= 2 ==>
        '.' in n &&
        var k := Grouping.FirstIndex(n, '.');
        SanitizeCurrency(v) == n[..k + 1] + Without(n[k + 1..], '.')
  {
    var n := SanitizeNumber(v);
    if Count(n, '.') >= 2 {
      assert '.' in n by {
        if '.' !in n { CountZeroIff(n, '.'); }
      }
      var k := Grouping.FirstIndex(n, '.');
      var a, b := n[..k], n[k + 1..];
      CountZeroIff(a, '.');
      assert n == a + ['.'] + b;
      SplitAtFirst(a, '.', b);
      var parts := Split(n, '.');
      assert parts[0] == a && parts[1..] == Split(b, '.');
      JoinSplitWithout(b, '.');
      assert n[..k + 1] == a + ".";
    }
  }

  // ---------------------------------------------------------------------
  // sanitizeAlphanumeric
  // ---------------------------------------------------------------------

  /** `sanitizeAlphanumeric(input)` */
  function SanitizeAlphanumeric(v: Value): (r: string)
    ensures !v.Str? ==> r == ""
    ensures forall i :: 0 <= i < |r| ==> IsAlphanumeric(r[i])
    ensures NoDoubleWhite(r)
  {
    match v
    case Str(s) =>
      var t := Remove(Trim(s), NonAlphanumeric);
      CollapseKeeps(t, NonAlphanumeric);
      CollapseWhite(t)
    case _ => ""
  }

  // ---------------------------------------------------------------------
  // isSafeString
  // ---------------------------------------------------------------------

  /** The class `\w`. */
  predicate IsWordChar(c: char)
  {
    ('a' <= c <= 'z') || ('A' <= c <= 'Z') || Numbers.IsDigit(c) || c == '_'
  }

  /** The end of the run of characters from `i` on that satisfy `p`. */
  function SkipWhile(s: string, i: nat, p: char -> bool): (j: nat)
    requires i <= |s|
    ensures i <= j <= |s|
    ensures forall k :: i <= k < j ==> p(s[k])
    ensures j < |s| ==> !p(s[j])
    decreases |s| - i
  {
    if i < |s| && p(s[i]) then SkipWhile(s, i + 1, p) else i
  }

  /** `/on\w+\s*=/i` matches at `i`. Word characters, white space and `=`
    * are disjoint classes, so the greedy runs decide the match. */
  predicate HandlerAt(s: string, i: nat)
  {
    i + 2 < |s| && Lower(s[i]) == 'o' && Lower(s[i + 1]) == 'n' && IsWordChar(s[i + 2]) &&
    var j := SkipWhile(s, i + 2, IsWordChar);
    var k := SkipWhile(s, j, IsWhite);
    k < |s| && s[k] == '='
  }

  predicate HasHandler(s: string)
  {
    exists i :: 0 <= i < |s| && HandlerAt(s, i)
  }

  /** The patterns matched case-insensitively, as lowercase strings. */
  const LITERAL_PATTERNS: seq<string> := ["<script", "javascript:", "eval(", "expression(", "vbscript:"]

  /** `isSafeString(input)`: a string none of the six patterns matches.
    * Case-insensitive matching of an ASCII pattern is matching the
    * lowercased input. */
  predicate IsSafeString(v: Value)
  {
    v.Str? &&
    (forall p :: p in LITERAL_PATTERNS ==> !Contains(ToLower(v.text), p)) &&
    !HasHandler(v.text)
  }

  /** `onclick =` is caught however it is spelt. */
  lemma HandlerUnsafe(pre: string, post: string)
    ensures !IsSafeString(Str(pre + "onClick =" + post))
  {
    var s := pre + "onClick =" + post;
    var i := |pre|;
    assert s[i..i + 9] == "onClick =";
    assert SkipWhile(s, i + 7, IsWordChar) == i + 7;
    assert SkipWhile(s, i + 6, IsWordChar) == i + 7;
    assert SkipWhile(s, i + 5, IsWordChar) == i + 7;
    assert SkipWhile(s, i + 4, IsWordChar) == i + 7;
    assert SkipWhile(s, i + 3, IsWordChar) == i + 7;
    assert SkipWhile(s, i + 2, IsWordChar) == i + 7;
    assert SkipWhile(s, i + 8, IsWhite) == i + 8;
    assert SkipWhile(s, i + 7, IsWhite) == i + 8;
    assert HandlerAt(s, i);
  }

  /** Any spelling of one of the five literal patterns, anywhere in the
    * input, makes it unsafe. */
  lemma {:induction false} PatternUnsafe(pre: string, m: string, post: string)
    requires ToLower(m) in LITERAL_PATTERNS
    ensures !IsSafeString(Str(pre + m + post))
  {
    var s := pre + m + post;
    ToLowerAppend(pre + m, post);
    ToLowerAppend(pre, m);
    ContainsInfix(ToLower(pre), ToLower(m), ToLower(post));
    assert Contains(ToLower(s), ToLower(m));
  }

  /** A non-string is never safe. */
  lemma {:induction false} NonStringUnsafe(v: Value)
    requires !v.Str?
    ensures !IsSafeString(v)
  {
  }

  /** Lowercasing never produces `<`, so a string without `<` holds no
    * script tag in any spelling. */
  lemma {:induction false} NoScriptWithoutLt(s: string)
    requires '<' !in s
    ensures !Contains(ToLower(s), "<script")
  {
    if Contains(ToLower(s), "<script") {
      ContainsWitness(ToLower(s), "<script");
    }
  }

  /** Sanitised strings never hold a script tag. */
  lemma {:induction false} SanitizedNoScriptTag(v: Value)
    ensures !Contains(ToLower(SanitizeString(v)), "<script")
  {
    var s := SanitizeString(v);
    assert forall i :: 0 <= i < |s| ==> !IsDangerous(s[i]);
    NoScriptWithoutLt(s);
  }

  // ---------------------------------------------------------------------
  // escapeHtml
  // ---------------------------------------------------------------------

  function EscapeChar(c: char): string
  {
    match c
    case '&' => "&amp;"
    case '<' => "&lt;"
    case '>' => "&gt;"
    case '"' => "&quot;"
    case '\'' => "&#039;"
    case _ => [c]
  }

  function Escape(s: string): (r: string)
    ensures |r| >= |s|
    ensures forall c :: c in r ==> !IsDangerous(c)
  {
    if s == [] then [] else EscapeChar(s[0]) + Escape(s[1..])
  }

  /** `escapeHtml(input)`: anything but a string gives `''`. */
  function EscapeHtml(v: Value): (r: string)
    ensures !v.Str? ==> r == ""
    ensures v.Str? ==> |r| >= |v.text|
    ensures forall c :: c in r ==> !IsDangerous(c)
  {
    match v
    case Str(s) => Escape(s)
    case _ => ""
  }

  /** The entity `s` starts with, if any, as the character it stands for
    * and its length. */
  function EntityAt(s: string): (r: Option<(char, nat)>)
    ensures r.Some? ==> 1 <= r.value.1 <= |s|
  {
    if |s| >= 5 && s[..5] == "&amp;" then Some(('&', 5))
    else if |s| >= 4 && s[..4] == "&lt;" then Some(('<', 4))
    else if |s| >= 4 && s[..4] == "&gt;" then Some(('>', 4))
    else if |s| >= 6 && s[..6] == "&quot;" then Some(('"', 6))
    else if |s| >= 6 && s[..6] == "&#039;" then Some(('\'', 6))
    else None
  }

  /** Decoding of the five entities `escapeHtml` writes, left to right. */
  function Unescape(s: string): string
    decreases |s|
  {
    if s == [] then []
    else
      match EntityAt(s)
      case Some((c, n)) => [c] + Unescape(s[n..])
      case None => [s[0]] + Unescape(s[1..])
  }

  /** An escaped character followed by anything starts with its own entity,
    * and a character left as it is starts with none. */
  lemma {:induction false} EntityOfEscape(c: char, x: string)
    ensures var e := EscapeChar(c);
      EntityAt(e + x) == (if |e| > 1 then Some((c, |e|)) else None)
  {
    var t := EscapeChar(c) + x;
    if c == '&' {
      assert t[..5] == "&amp;";
    } else if c == '<' {
      assert t[1] == 'l' && t[..4] == "&lt;";
    } else if c == '>' {
      assert t[1] == 'g' && t[..4] == "&gt;";
    } else if c == '"' {
      assert t[1] == 'q' && t[..6] == "&quot;";
    } else if c == '\'' {
      assert t[1] == '#' && t[..6] == "&#039;";
    } else {
      assert t[0] == c;
    }
  }

  /** Decoding one escaped character gives it back. */
  lemma {:induction false} UnescapeChar(c: char, x: string)
    ensures Unescape(EscapeChar(c) + x) == [c] + Unescape(x)
  {
    var e := EscapeChar(c);
    EntityOfEscape(c, x);
    assert (e + x)[|e|..] == x;
    if |e| == 1 {
      assert (e + x)[0] == c;
    }
  }

  lemma {:induction false} UnescapeEscape(s: string)
    ensures Unescape(Escape(s)) == s
  {
    if s != [] {
      UnescapeEscape(s[1..]);
      UnescapeChar(s[0], Escape(s[1..]));
      assert s == [s[0]] + s[1..];
    }
  }

  /** Text without any of `&<>"'` needs no escaping. */
  lemma {:induction false} EscapePlain(s: string)
    requires forall i :: 0 <= i < |s| ==> s[i] !in "&<>\"'"
    ensures Escape(s) == s
  {
    if s != [] {
      EscapePlain(s[1..]);
      assert s[0] !in "&<>\"'";
      assert s == [s[0]] + s[1..];
    }
  }

  // ---------------------------------------------------------------------
  // sanitizeFormData
  // ---------------------------------------------------------------------

  /** The new value of one field: its rule when one is given, otherwise the
    * sanitised text of a string, otherwise the value itself. */
  function SanitizedField(rules: map<string, Value -> Value>, key: string, v: Value): Value
  {
    if key in rules then rules[key](v)
    else if v.Str? then Str(SanitizeString(v))
    else v
  }

  /** `sanitizeFormData(data, rules)`: a copy of `data` whose fields are
    * replaced one by one; the key order of the loop does not matter. */
  method SanitizeFormData(data: map<string, Value>, rules: map<string, Value -> Value>)
    returns (r: map<string, Value>)
    ensures r.Keys == data.Keys
    ensures forall k :: k in data ==> r[k] == SanitizedField(rules, k, data[k])
    ensures forall k :: k in data && k !in rules && data[k].Str? ==> r[k].Str? && Clean(r[k].text)
    ensures forall k :: k in data && k !in rules && !data[k].Str? ==> r[k] == data[k]
  {
    r := data;
    var todo := data.Keys;
    while todo != {}
      invariant todo <= data.Keys && r.Keys == data.Keys
      invariant forall k :: k in todo ==> r[k] == data[k]
      invariant forall k :: k in data && k !in todo ==> r[k] == SanitizedField(rules, k, data[k])
      decreases todo
    {
      var key :| key in todo;
      r := r[key := SanitizedField(rules, key, r[key])];
      todo := todo - {key};
    }
  }
}
