/**
 * `replaceTemplates` of settings/utils.ts: every `{{key}}` placeholder found in the template is
 * replaced, one after the other, by the value stored under `key` in the template data.
 */
module Templates {
  import opened Wrappers
  import opened Strings
  import opened Records

  /** A placeholder key: the regular expression's capture `[^}]+`. */
  predicate IsKey(k: string)
  {
    |k| > 0 && '}' !in k
  }

  /** The text a placeholder for `k` occupies in the template. */
  function Placeholder(k: string): (r: string)
    ensures |r| == |k| + 4
  {
    "{{" + k + "}}"
  }

  /** The first index at or after `from` that holds a `}` (or `|s|` when there is none). */
  function FirstClose(s: string, from: nat): (j: nat)
    requires from <= |s|
    ensures from <= j <= |s|
    ensures j < |s| ==> s[j] == '}'
    ensures forall k :: from <= k < j ==> s[k] != '}'
    decreases |s| - from
  {
    if from == |s| || s[from] == '}' then from else FirstClose(s, from + 1)
  }

  /**
   * The match of `/\{\{([^}]+)\}\}/` anchored at the start of `s`, as its captured key.
   */
  function MatchAtStart(s: string): (o: Option<string>)
    ensures o.Some? ==> IsKey(o.value) && |Placeholder(o.value)| <= |s| && s[..|o.value| + 4] == Placeholder(o.value)
  {
    if |s| >= 2 && s[0] == '{' && s[1] == '{' then
      var j := FirstClose(s, 2);
      if j > 2 && j + 1 < |s| && s[j + 1] == '}' then
        assert s[..j + 2] == "{{" + s[2..j] + "}}";
        Some(s[2..j])
      else None
    else None
  }

  /** The anchored match succeeds exactly on a text that begins with a placeholder. */
  lemma MatchAtStartIff(s: string, k: string)
    ensures MatchAtStart(s) == Some(k) <==> IsKey(k) && |Placeholder(k)| <= |s| && s[..|k| + 4] == Placeholder(k)
  {
    if IsKey(k) && |Placeholder(k)| <= |s| && s[..|k| + 4] == Placeholder(k) {
      assert s[0] == '{' && s[1] == '{';
      forall i | 2 <= i < |k| + 2 ensures s[i] != '}' {
        assert s[i] == Placeholder(k)[i] == k[i - 2];
      }
      assert s[|k| + 2] == Placeholder(k)[|k| + 2] == '}';
      assert s[|k| + 3] == Placeholder(k)[|k| + 3] == '}';
      assert FirstClose(s, 2) == |k| + 2;
      assert s[2..|k| + 2] == s[..|k| + 4][2..|k| + 2] == Placeholder(k)[2..|k| + 2] == k;
    }
  }

  /**
   * The keys of `text.matchAll(/\{\{([^}]+)\}\}/g)`, in order: after a match the scan resumes
   * behind it, otherwise one character further.
   */
  function Templates(s: string): (keys: seq<string>)
    ensures forall i :: 0 <= i < |keys| ==> IsKey(keys[i])
    decreases |s|
  {
    if s == [] then []
    else
      match MatchAtStart(s)
      case Some(k) => [k] + Templates(s[|k| + 4..])
      case None => Templates(s[1..])
  }

  /** A text without `{` holds no placeholder. */
  lemma {:induction false} TemplatesPlain(s: string)
    requires '{' !in s
    ensures Templates(s) == []
    decreases |s|
  {
    if s != [] {
      assert MatchAtStart(s) == None;
      assert forall c :: c in s[1..] ==> c in s;
      TemplatesPlain(s[1..]);
    }
  }

  /** The scan finds the placeholder a text begins with and resumes behind it. */
  lemma TemplatesAfterPlaceholder(k: string, rest: string)
    requires IsKey(k)
    ensures Templates(Placeholder(k) + rest) == [k] + Templates(rest)
  {
    var s := Placeholder(k) + rest;
    assert s[..|k| + 4] == Placeholder(k);
    MatchAtStartIff(s, k);
    assert s[|k| + 4..] == rest;
  }

  /** The scan skips text without `{` and then finds the placeholder that follows it. */
  lemma {:induction false} TemplatesAfterPlain(p: string, k: string, rest: string)
    requires '{' !in p && IsKey(k)
    ensures Templates(p + Placeholder(k) + rest) == [k] + Templates(rest)
    decreases |p|
  {
    var s := p + Placeholder(k) + rest;
    if p == [] {
      assert s == Placeholder(k) + rest;
      TemplatesAfterPlaceholder(k, rest);
    } else {
      assert MatchAtStart(s) == None;
      assert s[1..] == p[1..] + Placeholder(k) + rest;
      assert forall c :: c in p[1..] ==> c in p;
      TemplatesAfterPlain(p[1..], k, rest);
    }
  }

  /** `s.replace(pattern, value)` for a string pattern: only the first occurrence is replaced. */
  function ReplaceFirst(s: string, pattern: string, value: string): (r: string)
    ensures !Contains(s, pattern) ==> r == s
  {
    match IndexOf(s, pattern)
    case None => s
    case Some(i) => s[..i] + value + s[i + |pattern|..]
  }

  /** Where `pattern` first occurs at `i`, the text around it is kept and `value` takes its place. */
  lemma ReplaceFirstAt(s: string, pattern: string, value: string, i: nat)
    requires OccursAt(s, pattern, i)
    requires forall j: nat :: j < i ==> !OccursAt(s, pattern, j)
    ensures ReplaceFirst(s, pattern, value) == s[..i] + value + s[i + |pattern|..]
  {
    var o := IndexOf(s, pattern);
    assert o.Some?;
    assert o.value == i;
  }

  /** A pattern cannot occur where the text holds a character other than its first. */
  lemma NotOccursAtFirstChar(s: string, pattern: string, j: nat)
    requires |pattern| > 0 && j < |s| && s[j] != pattern[0]
    ensures !OccursAt(s, pattern, j)
  {
    if j + |pattern| <= |s| {
      assert s[j..j + |pattern|][0] == s[j];
    }
  }

  /** `get(data, key, '')` on the flattened template data. */
  function Get(data: Assoc<string>, key: string): (v: string)
    ensures key !in Keys(data) ==> v == ""
  {
    Lookup(data, key).GetOr("")
  }

  /** The output after the placeholders for `keys` have been replaced in turn. */
  function ApplyAll(text: string, keys: seq<string>, data: Assoc<string>): string
    decreases |keys|
  {
    if keys == [] then text
    else
      var last := keys[|keys| - 1];
      ReplaceFirst(ApplyAll(text, keys[..|keys| - 1], data), Placeholder(last), Get(data, last))
  }

  /** What `replaceTemplates(text, data)` returns. */
  function Rendered(text: string, data: Assoc<string>): string
  {
    ApplyAll(text, Templates(text), data)
  }

  /** `replaceTemplates`: the loop over the matches, replacing in the current output. */
  method ReplaceTemplates(text: string, data: Assoc<string>) returns (output: string)
    ensures output == Rendered(text, data)
  {
    var templates := Templates(text);
    output := text;
    for i := 0 to |templates|
      invariant output == ApplyAll(text, templates[..i], data)
    {
      assert templates[..i + 1][..i] == templates[..i];
      var key := templates[i];
      var value := Get(data, key);
      output := ReplaceFirst(output, Placeholder(key), value);
    }
    assert templates[..|templates|] == templates;
  }

  /** A text without placeholders is returned as it is. */
  lemma RenderedPlain(text: string, data: Assoc<string>)
    requires '{' !in text
    ensures Rendered(text, data) == text
  {
    TemplatesPlain(text);
  }

  /** A single placeholder between plain texts is replaced by its value; a missing key by "". */
  lemma RenderedOne(p: string, k: string, rest: string, data: Assoc<string>)
    requires '{' !in p && '{' !in rest && IsKey(k)
    ensures Rendered(p + Placeholder(k) + rest, data) == p + Get(data, k) + rest
  {
    var s := p + Placeholder(k) + rest;
    TemplatesAfterPlain(p, k, rest);
    TemplatesPlain(rest);
    assert Templates(s) == [k];
    assert [k][..0] == [];
    assert OccursAt(s, Placeholder(k), |p|) by {
      assert s[|p|..|p| + |Placeholder(k)|] == Placeholder(k);
    }
    forall j: nat | j < |p| ensures !OccursAt(s, Placeholder(k), j) {
      assert s[j] == p[j];
      NotOccursAtFirstChar(s, Placeholder(k), j);
    }
    ReplaceFirstAt(s, Placeholder(k), Get(data, k), |p|);
    assert s[..|p|] == p;
    assert s[|p| + |Placeholder(k)|..] == rest;
    assert ApplyAll(s, [], data) == s;
    assert ApplyAll(s, [k], data) == ReplaceFirst(s, Placeholder(k), Get(data, k));
  }

  /** A text that starts with the pattern has its prefix replaced. */
  lemma ReplaceFirstAtStart(pattern: string, rest: string, value: string)
    ensures ReplaceFirst(pattern + rest, pattern, value) == value + rest
  {
    var s := pattern + rest;
    assert s[0..|pattern|] == pattern;
    assert OccursAt(s, pattern, 0);
    ReplaceFirstAt(s, pattern, value, 0);
    assert s[|pattern|..] == rest;
  }

  /** One more key replaces its placeholder in the output of the keys before it. */
  lemma ApplyAllSnoc(text: string, keys: seq<string>, k: string, data: Assoc<string>)
    ensures ApplyAll(text, keys + [k], data) == ReplaceFirst(ApplyAll(text, keys, data), Placeholder(k), Get(data, k))
  {
    assert (keys + [k])[..|keys|] == keys;
  }

  /** The scan of two adjacent placeholders finds both keys, in order. */
  lemma TemplatesOfPair(a: string, b: string)
    requires IsKey(a) && IsKey(b)
    ensures Templates(Placeholder(a) + Placeholder(b)) == [a, b]
  {
    TemplatesAfterPlaceholder(b, []);
    assert Placeholder(b) + [] == Placeholder(b);
    TemplatesAfterPlaceholder(a, Placeholder(b));
  }

  /**
   * Replacements act on the current output, so a value that itself holds a later placeholder
   * receives that placeholder's value, and the later placeholder in the template stays: with
   * `a` mapped to "{{b}}" and `b` to `x`, "{{a}}{{b}}" renders as `x` followed by "{{b}}".
   */
  lemma RenderedValueCapturesLaterPlaceholder(a: string, b: string, x: string, data: Assoc<string>)
    requires IsKey(a) && IsKey(b)
    requires Get(data, a) == Placeholder(b) && Get(data, b) == x
    ensures Rendered(Placeholder(a) + Placeholder(b), data) == x + Placeholder(b)
  {
    var s := Placeholder(a) + Placeholder(b);
    TemplatesOfPair(a, b);
    assert [a, b] == [a] + [b];
    assert [a] == [] + [a];
    ApplyAllSnoc(s, [], a, data);
    ReplaceFirstAtStart(Placeholder(a), Placeholder(b), Placeholder(b));
    assert ApplyAll(s, [a], data) == Placeholder(b) + Placeholder(b);
    ApplyAllSnoc(s, [a], b, data);
    ReplaceFirstAtStart(Placeholder(b), Placeholder(b), x);
  }
}
