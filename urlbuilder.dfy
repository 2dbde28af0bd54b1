/** `buildUrl` (shared/routes.ts): fill a route template such as "/api/campaigns/:id" by
    replacing, for each parameter entry in turn, the first occurrence of ":" + key with the
    value. The replacement is JavaScript's `String.prototype.replace` with a string pattern,
    which expands `$$`, `$&`, `` $` `` and `$'` in the replacement text (section 22.1.3.19.1,
    GetSubstitution, of ECMA-262, 13th edition). */
module UrlBuilder {
  import opened Wrappers

  /** `pat` occurs in `s` starting at index `i`. */
  predicate OccursAt(s: string, pat: string, i: int)
  {
    0 <= i && i + |pat| <= |s| && s[i..i + |pat|] == pat
  }

  /** The first index at or after `from` where `pat` occurs. */
  function IndexFrom(s: string, pat: string, from: nat): (r: Option<nat>)
    requires from <= |s|
    ensures r.Some? ==> from <= r.value && OccursAt(s, pat, r.value)
    ensures r.Some? ==> forall j :: from <= j < r.value ==> !OccursAt(s, pat, j)
    ensures r.None? ==> forall j :: from <= j <= |s| ==> !OccursAt(s, pat, j)
    decreases |s| - from
  {
    if OccursAt(s, pat, from) then Some(from)
    else if from == |s| then None
    else IndexFrom(s, pat, from + 1)
  }

  /** `s.indexOf(pat)`: the first occurrence of the plain substring `pat`, if any. */
  function IndexOf(s: string, pat: string): (r: Option<nat>)
    ensures r.Some? ==> OccursAt(s, pat, r.value) && forall j :: 0 <= j < r.value ==> !OccursAt(s, pat, j)
    ensures r.None? <==> forall j :: 0 <= j <= |s| ==> !OccursAt(s, pat, j)
  {
    IndexFrom(s, pat, 0)
  }

  /** An occurrence with none before it is the one `IndexOf` finds. */
  lemma IndexOfFirst(s: string, pat: string, i: nat)
    requires OccursAt(s, pat, i)
    requires forall j :: 0 <= j < i ==> !OccursAt(s, pat, j)
    ensures IndexOf(s, pat) == Some(i)
  {
  }

  /** A pattern cannot occur before the first occurrence of its first character. */
  lemma NoOccurrenceBefore(s: string, pat: string, i: nat)
    requires |pat| > 0 && i <= |s| && pat[0] !in s[..i]
    ensures forall j :: 0 <= j < i ==> !OccursAt(s, pat, j)
  {
    forall j | 0 <= j < i ensures !OccursAt(s, pat, j) {
      if j + |pat| <= |s| {
        assert s[j..j + |pat|][0] == s[..i][j];
      }
    }
  }

  /** `s.includes(pat)`. */
  predicate Includes(s: string, pat: string)
  {
    IndexOf(s, pat).Some?
  }

  /** The replacement text after expanding `$` patterns, for a match of `matched` with the
      text `before` in front of it and `after` behind it. With a string pattern there are no
      capture groups, so `$1` or `$<` stay as they are. */
  function Substitution(replacement: string, before: string, matched: string, after: string): string
    decreases |replacement|
  {
    if |replacement| >= 2 && replacement[0] == '$' && replacement[1] in "$&`'" then
      var expansion :=
        if replacement[1] == '$' then "$"
        else if replacement[1] == '&' then matched
        else if replacement[1] == '`' then before
        else after;
      expansion + Substitution(replacement[2..], before, matched, after)
    else if replacement == [] then []
    else [replacement[0]] + Substitution(replacement[1..], before, matched, after)
  }

  /** `$&` alone expands to the matched text. */
  lemma ExpandMatch(before: string, matched: string, after: string)
    ensures Substitution("$&", before, matched, after) == matched
  {
  }

  /** The replacement holds no `$` pattern that `replace` expands: no `$` is followed by
      one of `$`, `&`, `` ` `` or `'`. */
  predicate NoDollarPattern(replacement: string)
  {
    forall k :: 0 <= k < |replacement| - 1 ==> !(replacement[k] == '$' && replacement[k + 1] in "$&`'")
  }

  /** A replacement without an expanding `$` pattern is inserted as it is; this covers every
      replacement without `$`, and also ones such as "a$b" or "$1". */
  lemma {:induction false} SubstitutionLiteral(replacement: string, before: string, matched: string, after: string)
    requires NoDollarPattern(replacement)
    ensures Substitution(replacement, before, matched, after) == replacement
    decreases |replacement|
  {
    if replacement != [] {
      assert !(|replacement| >= 2 && replacement[0] == '$' && replacement[1] in "$&`'");
      var tail := replacement[1..];
      assert NoDollarPattern(tail) by {
        forall k | 0 <= k < |tail| - 1 ensures !(tail[k] == '$' && tail[k + 1] in "$&`'") {
          assert tail[k] == replacement[k + 1] && tail[k + 1] == replacement[k + 2];
        }
      }
      SubstitutionLiteral(tail, before, matched, after);
      assert [replacement[0]] + tail == replacement;
    }
  }

  /** A replacement without `$` has no expanding `$` pattern. */
  lemma DollarFreeIsPlain(replacement: string)
    requires '$' !in replacement
    ensures NoDollarPattern(replacement)
  {
  }

  /** `s.replace(pat, replacement)` with a string pattern: only the first occurrence is
      replaced; without one, `s` is returned unchanged. */
  function ReplaceFirst(s: string, pat: string, replacement: string): (r: string)
    ensures IndexOf(s, pat).None? ==> r == s
  {
    match IndexOf(s, pat)
    case None => s
    case Some(i) =>
      s[..i] + Substitution(replacement, s[..i], pat, s[i + |pat|..]) + s[i + |pat|..]
  }

  /** The body of the `forEach`: `if (url.includes(":" + key)) url = url.replace(":" + key, value)`. */
  function Step(url: string, key: string, value: string): (r: string)
    ensures !Includes(url, ":" + key) ==> r == url
  {
    var pat := ":" + key;
    if Includes(url, pat) then ReplaceFirst(url, pat, value) else url
  }

  /** For a value without an expanding `$` pattern, a step replaces exactly the first
      occurrence of ":" + key by the value and keeps the text on both sides. */
  lemma StepReplacesFirst(url: string, key: string, value: string, i: nat)
    requires NoDollarPattern(value)
    requires OccursAt(url, ":" + key, i)
    requires forall j :: 0 <= j < i ==> !OccursAt(url, ":" + key, j)
    ensures Step(url, key, value) == url[..i] + value + url[i + |key| + 1..]
  {
    var pat := ":" + key;
    IndexOfFirst(url, pat, i);
    SubstitutionLiteral(value, url[..i], pat, url[i + |pat|..]);
  }

  /** The entries folded in order: each step acts on the text the earlier ones produced. */
  function FillTemplate(url: string, entries: seq<(string, string)>): string
    decreases |entries|
  {
    if entries == [] then url else FillTemplate(Step(url, entries[0].0, entries[0].1), entries[1..])
  }

  /** `buildUrl(path, params)`, with `Object.entries(params)` given as a sequence (None
      standing for an absent `params`) and every value already converted with `String`. */
  method BuildUrl(path: string, params: Option<seq<(string, string)>>) returns (url: string)
    ensures params.None? ==> url == path
    ensures params.Some? ==> url == FillTemplate(path, params.value)
  {
    url := path;
    if params.Some? {
      var entries := params.value;
      for i := 0 to |entries|
        invariant FillTemplate(url, entries[i..]) == FillTemplate(path, entries)
      {
        assert entries[i..][1..] == entries[i + 1..];
        var (key, value) := entries[i];
        if Includes(url, ":" + key) {
          url := ReplaceFirst(url, ":" + key, value);
        }
      }
    }
  }

  /** With no entries the template comes back unchanged. */
  lemma FillTemplateNoEntries(path: string)
    ensures FillTemplate(path, []) == path
  {
  }

  /** Filling is a left fold: the entries of a concatenation act one list after the other. */
  lemma {:induction false} FillTemplateConcat(url: string, a: seq<(string, string)>, b: seq<(string, string)>)
    ensures FillTemplate(url, a + b) == FillTemplate(FillTemplate(url, a), b)
    decreases |a|
  {
    if a == [] {
      assert a + b == b;
    } else {
      assert (a + b)[0] == a[0];
      assert (a + b)[1..] == a[1..] + b;
      FillTemplateConcat(Step(url, a[0].0, a[0].1), a[1..], b);
    }
  }

  /** The campaign route "/api/campaigns/:id" with `{ id: 5 }` gives "/api/campaigns/5". */
  lemma CampaignRouteExample()
    ensures FillTemplate("/api/campaigns/:id", [("id", "5")]) == "/api/campaigns/5"
  {
    var url := "/api/campaigns/:id";
    assert url[..15] == "/api/campaigns/";
    NoOccurrenceBefore(url, ":id", 15);
    assert url[15..18] == ":id";
    StepReplacesFirst(url, "id", "5", 15);
    assert url[..15] + "5" + url[18..] == "/api/campaigns/5";
    assert FillTemplate(url, [("id", "5")]) == FillTemplate(Step(url, "id", "5"), []);
  }

  /** Matching is on the plain substring: the key "id" also matches inside ":idx". */
  lemma PrefixKeyExample()
    ensures FillTemplate("/a/:idx", [("id", "5")]) == "/a/5x"
  {
    var url := "/a/:idx";
    assert url[..3] == "/a/";
    NoOccurrenceBefore(url, ":id", 3);
    assert url[3..6] == ":id";
    StepReplacesFirst(url, "id", "5", 3);
    assert url[..3] + "5" + url[6..] == "/a/5x";
    assert FillTemplate(url, [("id", "5")]) == FillTemplate(Step(url, "id", "5"), []);
  }

  /** In a template whose text before ":" + key has no ':', the step replaces that
      occurrence, with its text in front as `` $` `` and the text behind as `$'`. */
  lemma StepAfterPlainPrefix(prefix: string, key: string, rest: string, value: string)
    requires ':' !in prefix
    ensures IndexOf(prefix + (":" + key) + rest, ":" + key) == Some(|prefix|)
    ensures Step(prefix + (":" + key) + rest, key, value)
      == prefix + Substitution(value, prefix, ":" + key, rest) + rest
  {
    var pat := ":" + key;
    var url := prefix + pat + rest;
    var i := |prefix|;
    assert url[..i] == prefix && url[i..i + |pat|] == pat && url[i + |pat|..] == rest;
    NoOccurrenceBefore(url, pat, i);
    IndexOfFirst(url, pat, i);
  }

  /** As written, a value containing `$&` is expanded by `replace`: filling ":id" (or any
      key) with the value "$&" reinserts ":id" instead of the value, for example in
      "/api/campaigns/:id". */
  lemma DollarValueExample(prefix: string, key: string)
    requires ':' !in prefix
    ensures FillTemplate(prefix + (":" + key), [(key, "$&")]) == prefix + (":" + key)
  {
    var url := prefix + (":" + key);
    assert url + "" == url;
    StepAfterPlainPrefix(prefix, key, "", "$&");
    ExpandMatch(prefix, ":" + key, "");
    assert FillTemplate(url, [(key, "$&")]) == FillTemplate(Step(url, key, "$&"), []);
  }

  /** The evidently intended step: replace the first occurrence of ":" + key by the value
      itself, whatever characters the value contains. */
  function StepLiteral(url: string, key: string, value: string): (r: string)
    ensures IndexOf(url, ":" + key).None? ==> r == url
    ensures IndexOf(url, ":" + key).Some? ==>
      var i := IndexOf(url, ":" + key).value;
      r == url[..i] + value + url[i + |key| + 1..]
    ensures NoDollarPattern(value) ==> r == Step(url, key, value)
  {
    var pat := ":" + key;
    match IndexOf(url, pat)
    case None => url
    case Some(i) =>
      assert NoDollarPattern(value) ==> Substitution(value, url[..i], pat, url[i + |pat|..]) == value by {
        if NoDollarPattern(value) { SubstitutionLiteral(value, url[..i], pat, url[i + |pat|..]); }
      }
      url[..i] + value + url[i + |pat|..]
  }

  /** The evidently intended filling, folding `StepLiteral` over the entries in order. */
  function FillTemplateLiteral(url: string, entries: seq<(string, string)>): (r: string)
    ensures (forall k :: 0 <= k < |entries| ==> NoDollarPattern(entries[k].1)) ==> r == FillTemplate(url, entries)
    decreases |entries|
  {
    if entries == [] then url
    else
      assert forall k :: 1 <= k < |entries| ==> entries[1..][k - 1] == entries[k];
      FillTemplateLiteral(StepLiteral(url, entries[0].0, entries[0].1), entries[1..])
  }

  /** With the intended step, ":id" (or any key) filled with "$&" gives the value literally. */
  lemma DollarValueLiteralExample(prefix: string, key: string)
    requires ':' !in prefix
    ensures FillTemplateLiteral(prefix + (":" + key), [(key, "$&")]) == prefix + "$&"
  {
    var url := prefix + (":" + key);
    assert url + "" == url;
    StepAfterPlainPrefix(prefix, key, "", "$&");
    assert url[..|prefix|] == prefix && url[|prefix| + |key| + 1..] == "";
    assert StepLiteral(url, key, "$&") == prefix + "$&";
  }
}
