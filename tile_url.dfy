/**
 * The dynamic-style suffix of tile URLs: `getTileUrl` appends
 * `&st=<style>` to the filled template when a style string is configured,
 * and nothing otherwise.
 */
module TileUrl {
  import opened Wrappers

  /** The query parameter that carries a dynamic style. */
  const StyleParam: string := "&st="

  /** What `getTileUrl` appends: `"&st=" + style` for a style string, nothing without one. */
  function StyleSuffix(style: Option<string>): string
  {
    if style.Some? then StyleParam + style.value else ""
  }

  /** The number of places where `"&st="` starts in `s`. */
  function StyleMarks(s: string): nat
  {
    if |s| < 4 then 0
    else (if s[..4] == StyleParam then 1 else 0) + StyleMarks(s[1..])
  }

  /** No occurrence starts at a character other than `&`. */
  lemma StyleMarksSkip(s: string)
    requires |s| > 0 && s[0] != '&'
    ensures StyleMarks(s) == StyleMarks(s[1..])
  {
    if |s| >= 4 {
      assert s[..4][0] != StyleParam[0];
    }
  }

  /**
   * No occurrence of `"&st="` straddles the end of `a` when `b` begins with
   * `&`: only a first character can be `&` in the pattern.
   */
  lemma {:induction false} StyleMarksAppend(a: string, b: string)
    requires |b| > 0 && b[0] == '&'
    ensures StyleMarks(a + b) == StyleMarks(a) + StyleMarks(b)
  {
    if a == [] {
      assert a + b == b;
    } else {
      assert (a + b)[1..] == a[1..] + b;
      StyleMarksAppend(a[1..], b);
      if |a| >= 4 {
        assert (a + b)[..4] == a[..4];
      } else {
        assert StyleMarks(a) == 0 && StyleMarks(a[1..]) == 0;
        if |a + b| >= 4 {
          assert (a + b)[..4][|a|] == '&' != StyleParam[|a|];
        }
      }
    }
  }

  /** The style parameter itself is one occurrence; the style value adds its own. */
  lemma StyleMarksOfParam(style: string)
    ensures StyleMarks(StyleParam + style) == 1 + StyleMarks(style)
  {
    var s := StyleParam + style;
    assert s[..4] == StyleParam;
    StyleMarksSkip(s[1..]);
    assert s[1..][1..] == s[2..];
    StyleMarksSkip(s[2..]);
    assert s[2..][1..] == s[3..];
    StyleMarksSkip(s[3..]);
    assert s[3..][1..] == style;
  }

  /**
   * Appending the suffix of a configured style adds exactly one `"&st="`
   * (more only if the style value itself contains one); without a style the
   * URL is unchanged.
   */
  lemma StyleSuffixAddsOneParam(url: string, style: Option<string>)
    ensures style.None? ==> url + StyleSuffix(style) == url
    ensures style.Some? ==>
      StyleMarks(url + StyleSuffix(style)) == StyleMarks(url) + 1 + StyleMarks(style.value)
  {
    if style.Some? {
      StyleMarksAppend(url, StyleSuffix(style));
      StyleMarksOfParam(style.value);
    }
  }
}
