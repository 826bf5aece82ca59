/**
 * JavaScript values as the JSON records of the two open-data sets deliver
 * them. Every field the pipeline reads is a string, `null` or `undefined`;
 * the pipeline tests them for truthiness and interpolates them into text.
 */
module Values {

  datatype Option<T> = None | Some(value: T)

  /** A record field: `undefined` (the key is absent), `null`, or a string. */
  datatype Field = Missing | Null | Str(s: string)

  /** JavaScript truthiness of a field: only a non-empty string is truthy. */
  predicate Truthy(f: Field)
  {
    f.Str? && f.s != ""
  }

  /** The text a template literal `${f}` produces for a field. */
  function Text(f: Field): string
  {
    match f
    case Missing => "undefined"
    case Null => "null"
    case Str(s) => s
  }
}

/**
 * The two pieces of `String.prototype` the pipeline relies on:
 * `trim()` (icon choice) and `split('T')[0]` (date display).
 */
module JsString {

  /**
   * The characters `trim()` removes: ECMAScript WhiteSpace (tab, vertical tab,
   * form feed, space, no-break space, byte order mark and the Zs category)
   * and LineTerminator (line feed, carriage return, line and paragraph
   * separators).
   */
  const Spaces: set<char> := {
    '\t', '\n', '\U{000B}', '\U{000C}', '\r', ' ', '\U{00A0}', '\U{1680}',
    '\U{2028}', '\U{2029}', '\U{202F}', '\U{205F}', '\U{3000}', '\U{FEFF}'
  }

  predicate IsSpace(c: char)
  {
    c in Spaces || '\U{2000}' <= c <= '\U{200A}'
  }

  predicate AllSpace(s: string)
  {
    forall i :: 0 <= i < |s| ==> IsSpace(s[i])
  }

  /** `s` with its leading spaces removed. */
  function TrimStart(s: string): (r: string)
    ensures |r| <= |s| && r == s[|s| - |r|..]
    ensures AllSpace(s[..|s| - |r|])
    ensures r == [] || !IsSpace(r[0])
  {
    if s != [] && IsSpace(s[0]) then TrimStart(s[1..]) else s
  }

  /** `s` with its trailing spaces removed. */
  function TrimEnd(s: string): (r: string)
    ensures |r| <= |s| && r == s[..|r|]
    ensures AllSpace(s[|r|..])
    ensures r == [] || !IsSpace(r[|r| - 1])
  {
    if s != [] && IsSpace(s[|s| - 1]) then TrimEnd(s[..|s| - 1]) else s
  }

  /** `r` sits in `s` at offset `i`, with nothing but spaces before and after it. */
  predicate TrimmedAt(s: string, r: string, i: int)
  {
    0 <= i && i + |r| <= |s| && s[i..i + |r|] == r && AllSpace(s[..i]) && AllSpace(s[i + |r|..])
  }

  /**
   * `s.trim()`: the infix of `s` left after removing spaces at both ends.
   * The result neither starts nor ends with a space.
   */
  function Trim(s: string): (r: string)
    ensures exists i :: TrimmedAt(s, r, i)
    ensures r == [] || (!IsSpace(r[0]) && !IsSpace(r[|r| - 1]))
  {
    var a := TrimStart(s);
    var r := TrimEnd(a);
    var i := |s| - |a|;
    assert s[i..i + |r|] == r;
    assert s[i + |r|..] == a[|r|..];
    assert TrimmedAt(s, r, i);
    r
  }

  /** Trimming is insensitive to extra padding of spaces at either end. */
  lemma {:induction false} TrimPadded(pre: string, s: string, post: string)
    requires AllSpace(pre) && AllSpace(post)
    ensures Trim(pre + s + post) == Trim(s)
  {
    TrimBothPadded(pre, s, post);
  }

  lemma {:induction false} TrimBothPadded(pre: string, s: string, post: string)
    requires AllSpace(pre) && AllSpace(post)
    ensures TrimEnd(TrimStart(pre + s + post)) == TrimEnd(TrimStart(s))
  {
    assert TrimStart(pre + s + post) == TrimStart(s + post) by {
      assert pre + s + post == pre + (s + post);
      TrimStartPadded(pre, s + post);
    }
    TrimStartSuffix(s, post);
    if TrimStart(s + post) == TrimStart(s) + post {
      TrimEndPadded(TrimStart(s), post);
    }
  }

  lemma {:induction false} TrimStartPadded(pre: string, s: string)
    requires AllSpace(pre)
    ensures TrimStart(pre + s) == TrimStart(s)
  {
    if pre != [] {
      assert (pre + s)[1..] == pre[1..] + s;
      TrimStartPadded(pre[1..], s);
    } else {
      assert pre + s == s;
    }
  }

  /** Removing leading spaces of `s + post` only reaches into `post` when `s` is all space. */
  lemma {:induction false} TrimStartSuffix(s: string, post: string)
    requires AllSpace(post)
    ensures TrimStart(s + post) == TrimStart(s) + post
            || (TrimStart(s) == [] && TrimStart(s + post) == [])
  {
    if s == [] {
      assert s + post == post;
    } else if IsSpace(s[0]) {
      assert (s + post)[1..] == s[1..] + post;
      TrimStartSuffix(s[1..], post);
    }
  }

  lemma {:induction false} TrimEndPadded(s: string, post: string)
    requires AllSpace(post)
    ensures TrimEnd(s + post) == TrimEnd(s)
  {
    if post != [] {
      assert (s + post)[..|s + post| - 1] == s + post[..|post| - 1];
      TrimEndPadded(s, post[..|post| - 1]);
    } else {
      assert s + post == s;
    }
  }

  /**
   * `s.split(sep)[0]`: the part of `s` before the first `sep`, the whole of
   * `s` when it holds no `sep`.
   */
  function BeforeFirst(s: string, sep: char): (r: string)
    ensures |r| <= |s| && r == s[..|r|]
    ensures sep !in r
    ensures |r| < |s| ==> s[|r|] == sep
    ensures sep !in s ==> r == s
  {
    if s == [] || s[0] == sep then [] else [s[0]] + BeforeFirst(s[1..], sep)
  }
}
