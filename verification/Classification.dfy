/** Normalising an agent's problem classification into "category/subcategory". */
module Classification {
  import opened Api

  /** Unicode lower-casing, rune by rune; all that matters is that it leaves canonical text alone. */
  ghost predicate Lowers(lower: char -> char) {
    forall c :: Plain(c) || c == '-' || c == '/' ==> lower(c) == c
  }

  predicate Letter(c: char) {
    'a' <= c <= 'z'
  }

  predicate Plain(c: char) {
    Letter(c) || '0' <= c <= '9'
  }

  // ---------- one segment ----------

  predicate EndsInHyphen(s: string) {
    s != "" && s[|s| - 1] == '-'
  }

  /** One more rune: kept if alphanumeric, otherwise a hyphen unless there is one or nothing yet. */
  function Push(out: string, c: char): string {
    if Plain(c) then out + [c] else if out != "" && !EndsInHyphen(out) then out + ['-'] else out
  }

  function Collapse(lower: char -> char, s: string): string {
    if s == "" then "" else Push(Collapse(lower, s[..|s| - 1]), lower(s[|s| - 1]))
  }

  function TrimLeft(s: string): string {
    if s != "" && s[0] == '-' then TrimLeft(s[1..]) else s
  }

  function TrimRight(s: string): string {
    if EndsInHyphen(s) then TrimRight(s[..|s| - 1]) else s
  }

  function Finish(b: string): string {
    var out := TrimRight(TrimLeft(b));
    if out == "" || Letter(out[0]) then out else "x-" + out
  }

  function Slug(lower: char -> char, s: string): string {
    Finish(Collapse(lower, s))
  }

  /** slugifyClassificationSegment. */
  method Slugify(lower: char -> char, s: string) returns (out: string)
    ensures out == Slug(lower, s)
  {
    var b, lastHyphen := "", false;
    for i := 0 to |s|
      invariant b == Collapse(lower, s[..i]) && (lastHyphen <==> EndsInHyphen(b))
    {
      assert s[..i + 1][..i] == s[..i];
      var r := lower(s[i]);
      if Plain(r) {
        b, lastHyphen := b + [r], false;
      } else if !lastHyphen && |b| > 0 {
        b, lastHyphen := b + ['-'], true;
      }
    }
    assert s[..|s|] == s;
    out := TrimRight(TrimLeft(b));
    if out == "" { return; }
    if out[0] < 'a' || out[0] > 'z' { out := "x-" + out; }
  }

  // ---------- the whole value ----------

  function Cut(s: string): (string, Option<string>) {
    if s == "" then ("", None)
    else if s[0] == '/' then ("", Some(s[1..]))
    else var (a, b) := Cut(s[1..]); ([s[0]] + a, b)
  }

  /** normalizeClassification. */
  function Normalize(lower: char -> char, s: string): string {
    var (category, sub) := Cut(s);
    if sub.None? then Slug(lower, s)
    else
      var a, b := Slug(lower, category), Slug(lower, sub.value);
      if a == "" then b else if b == "" then a else a + "/" + b
  }

  // ---------- canonical text ----------

  /** Letters, digits and single hyphens inside, a letter first: what a segment should look like. */
  ghost predicate Canonical(s: string) {
    && s != "" && Letter(s[0]) && !EndsInHyphen(s) && Tidy(s)
  }

  /** Only alphanumerics and hyphens, no hyphen first, no two in a row. */
  ghost predicate Tidy(s: string) {
    && (forall i :: 0 <= i < |s| ==> Plain(s[i]) || s[i] == '-')
    && (s != "" ==> s[0] != '-')
    && (forall i, j :: 0 <= i < j < |s| && j == i + 1 ==> !(s[i] == '-' && s[j] == '-'))
  }

  lemma {:induction false} CollapseTidy(lower: char -> char, s: string)
    ensures Tidy(Collapse(lower, s))
  {
    if s != "" { CollapseTidy(lower, s[..|s| - 1]); }
  }

  lemma {:induction false} CollapseFixes(lower: char -> char, s: string, n: nat)
    requires Lowers(lower) && Tidy(s) && n <= |s|
    ensures Collapse(lower, s[..n]) == s[..n]
  {
    if n > 0 {
      CollapseFixes(lower, s, n - 1);
      assert s[..n][..n - 1] == s[..n - 1] && s[..n] == s[..n - 1] + [s[n - 1]];
      assert n > 1 ==> s[..n - 1][n - 2] == s[n - 2];
    }
  }

  /** Trimming a tidy text takes at most its last hyphen away. */
  lemma TrimTidy(s: string)
    requires Tidy(s)
    ensures TrimLeft(s) == s
    ensures TrimRight(s) == if EndsInHyphen(s) then s[..|s| - 1] else s
    ensures Tidy(TrimRight(s)) && !EndsInHyphen(TrimRight(s))
  {
    if EndsInHyphen(s) {
      var t := s[..|s| - 1];
      assert t != "" ==> t[|t| - 1] == s[|s| - 2];
      assert !EndsInHyphen(t);
    }
  }

  /** A slug is empty or canonical. */
  lemma SlugCanonical(lower: char -> char, s: string)
    ensures Slug(lower, s) == "" || Canonical(Slug(lower, s))
  {
    var b := Collapse(lower, s);
    CollapseTidy(lower, s);
    TrimTidy(b);
    var out := TrimRight(b);
    if out != "" && !Letter(out[0]) {
      var x := "x-" + out;
      assert x[0] == 'x' && x[1] == '-' && forall i :: 2 <= i < |x| ==> x[i] == out[i - 2];
    }
  }

  /** Canonical segments are left alone. */
  lemma SlugFixes(lower: char -> char, s: string)
    requires Lowers(lower) && Canonical(s)
    ensures Slug(lower, s) == s
  {
    CollapseFixes(lower, s, |s|);
    assert s[..|s|] == s;
    TrimTidy(s);
  }

  lemma {:induction false} CutParts(s: string)
    ensures '/' !in Cut(s).0
    ensures Cut(s).1.None? <==> '/' !in s
    ensures s == if Cut(s).1.Some? then Cut(s).0 + "/" + Cut(s).1.value else Cut(s).0
  {
    if s != "" && s[0] != '/' {
      CutParts(s[1..]);
      assert s == [s[0]] + s[1..];
    }
  }

  lemma {:induction false} CutAtFirst(a: string, b: string)
    requires '/' !in a
    ensures Cut(a + "/" + b) == (a, Some(b))
  {
    var s := a + "/" + b;
    if a != "" {
      assert s[1..] == a[1..] + "/" + b;
      CutAtFirst(a[1..], b);
      assert a == [a[0]] + a[1..];
    } else {
      assert s[1..] == b;
    }
  }

  lemma CanonicalHasNoSlash(s: string)
    requires Canonical(s)
    ensures '/' !in s
  {
  }

  /** What normalising can give: nothing, one canonical segment, or two of them. */
  ghost predicate Normal(s: string) {
    || s == "" || Canonical(s)
    || exists a, b :: TwoPart(s, a, b)
  }

  ghost predicate TwoPart(s: string, a: string, b: string) {
    Canonical(a) && Canonical(b) && s == a + "/" + b
  }

  lemma NormalizeNormal(lower: char -> char, s: string)
    ensures Normal(Normalize(lower, s))
  {
    var (category, sub) := Cut(s);
    SlugCanonical(lower, s);
    SlugCanonical(lower, category);
    if sub.Some? {
      SlugCanonical(lower, sub.value);
      var a, b := Slug(lower, category), Slug(lower, sub.value);
      if a != "" && b != "" { assert TwoPart(a + "/" + b, a, b); }
    }
  }

  /** Normal values are left alone: normalising is idempotent. */
  lemma NormalizeFixes(lower: char -> char, s: string)
    requires Lowers(lower) && Normal(s)
    ensures Normalize(lower, s) == s
  {
    if s == "" {
      assert Collapse(lower, "") == "";
    } else if Canonical(s) {
      CanonicalHasNoSlash(s);
      CutParts(s);
      SlugFixes(lower, s);
    } else {
      var a, b :| TwoPart(s, a, b);
      CanonicalHasNoSlash(a);
      CutAtFirst(a, b);
      SlugFixes(lower, a);
      SlugFixes(lower, b);
    }
  }

  /** Exactly the normal values are left alone. */
  lemma FixedExactly(lower: char -> char, s: string)
    requires Lowers(lower)
    ensures Normalize(lower, s) == s <==> Normal(s)
  {
    NormalizeNormal(lower, s);
    if Normal(s) { NormalizeFixes(lower, s); }
  }

  lemma Idempotent(lower: char -> char, s: string)
    requires Lowers(lower)
    ensures Normalize(lower, Normalize(lower, s)) == Normalize(lower, s)
  {
    NormalizeNormal(lower, s);
    NormalizeFixes(lower, Normalize(lower, s));
  }

  /** At most one slash, however many the input had. */
  lemma AtMostOneSlash(lower: char -> char, s: string, i: nat, j: nat)
    requires i < j < |Normalize(lower, s)|
    ensures Normalize(lower, s)[i] != '/' || Normalize(lower, s)[j] != '/'
  {
    var r := Normalize(lower, s);
    NormalizeNormal(lower, s);
    if Canonical(r) {
      CanonicalHasNoSlash(r);
    } else {
      var a, b :| TwoPart(r, a, b);
      CanonicalHasNoSlash(a);
      CanonicalHasNoSlash(b);
      assert forall k :: |a| < k < |r| ==> r[k] == b[k - |a| - 1];
      assert forall k :: 0 <= k < |a| ==> r[k] == a[k];
    }
  }

  /** The pattern of the CRD field: two non-empty parts of lower-case letters, digits and hyphens, each
      starting with a letter. */
  predicate Part(s: string) {
    s != "" && Letter(s[0]) && forall i :: 0 <= i < |s| ==> Plain(s[i]) || s[i] == '-'
  }

  ghost predicate Conforms(s: string) {
    exists a, b :: Part(a) && Part(b) && s == a + "/" + b
  }

  /** The result meets the CRD pattern exactly when the input has a slash with something alphanumeric on
      both sides of the first one. */
  lemma ConformsExactly(lower: char -> char, s: string)
    ensures Conforms(Normalize(lower, s)) <==>
            Cut(s).1.Some? && Slug(lower, Cut(s).0) != "" && Slug(lower, Cut(s).1.value) != ""
  {
    var r := Normalize(lower, s);
    var (category, sub) := Cut(s);
    SlugCanonical(lower, s);
    SlugCanonical(lower, category);
    if sub.Some? && Slug(lower, category) != "" && Slug(lower, sub.value) != "" {
      SlugCanonical(lower, sub.value);
      assert Part(Slug(lower, category)) && Part(Slug(lower, sub.value));
    } else {
      if sub.Some? { SlugCanonical(lower, sub.value); }
      assert r == "" || Canonical(r);
      if r != "" { CanonicalHasNoSlash(r); }
      NeedsSlash(r);
    }
  }

  /** Position `k` holds the first slash of `s`. */
  predicate FirstSlash(s: string, k: int) {
    0 <= k < |s| && s[k] == '/' && forall m :: 0 <= m < k ==> s[m] != '/'
  }

  lemma {:induction false} CutAt(s: string)
    ensures Cut(s).1.None? ==> '/' !in s
    ensures Cut(s).1.Some? ==> FirstSlash(s, |Cut(s).0|) && Cut(s).0 == s[..|Cut(s).0|] && Cut(s).1.value == s[|Cut(s).0| + 1..]
  {
    if s != "" && s[0] != '/' {
      var tail := s[1..];
      CutAt(tail);
      var k := |Cut(tail).0|;
      assert s == [s[0]] + tail;
      if Cut(tail).1.Some? {
        assert s[..k + 1] == [s[0]] + tail[..k] && s[k + 2..] == tail[k + 1..];
      }
    }
  }

  /** Some letter or digit comes before the first slash and some after it. */
  ghost predicate BothSides(lower: char -> char, s: string) {
    exists i, k, j :: 0 <= i < k < j < |s| && FirstSlash(s, k) && Plain(lower(s[i])) && Plain(lower(s[j]))
  }

  lemma PartsOf(lower: char -> char, s: string, i: int, k: int, j: int)
    requires 0 <= i < k < j < |s| && FirstSlash(s, k) && Plain(lower(s[i])) && Plain(lower(s[j]))
    ensures Cut(s).1.Some? && Slug(lower, Cut(s).0) != "" && Slug(lower, Cut(s).1.value) != ""
  {
    hide Slug, Cut, Plain;
    CutAt(s);
    assert s[k] in s;
    var category, sub := Cut(s).0, Cut(s).1.value;
    SlugEmpty(lower, category);
    SlugEmpty(lower, sub);
    assert |category| == k && category[i] == s[i] && sub[j - k - 1] == s[j];
  }

  lemma FromParts(lower: char -> char, s: string)
    requires Cut(s).1.Some? && Slug(lower, Cut(s).0) != "" && Slug(lower, Cut(s).1.value) != ""
    ensures BothSides(lower, s)
  {
    hide Slug, Cut, Plain;
    CutAt(s);
    var category, sub := Cut(s).0, Cut(s).1.value;
    SlugEmpty(lower, category);
    SlugEmpty(lower, sub);
    var i :| 0 <= i < |category| && Plain(lower(category[i]));
    var j :| 0 <= j < |sub| && Plain(lower(sub[j]));
    assert s[i] == category[i] && s[|category| + 1 + j] == sub[j];
  }

  /** The result has a slash, exactly one, precisely if the first slash of the input has something
      alphanumeric on both sides; otherwise it has none. */
  lemma SlashExactly(lower: char -> char, s: string)
    ensures '/' in Normalize(lower, s) <==> BothSides(lower, s)
  {
    hide Slug, Cut, Plain, Normalize;
    SlashParts(lower, s);
    if '/' in Normalize(lower, s) { FromParts(lower, s); }
    if BothSides(lower, s) {
      var i, k, j :| 0 <= i < k < j < |s| && FirstSlash(s, k) && Plain(lower(s[i])) && Plain(lower(s[j]));
      PartsOf(lower, s, i, k, j);
    }
  }

  lemma SlashParts(lower: char -> char, s: string)
    ensures '/' in Normalize(lower, s) <==>
            Cut(s).1.Some? && Slug(lower, Cut(s).0) != "" && Slug(lower, Cut(s).1.value) != ""
  {
    var (category, sub) := Cut(s);
    SlugCanonical(lower, s);
    SlugCanonical(lower, category);
    if sub.Some? { SlugCanonical(lower, sub.value); }
    if sub.Some? && Slug(lower, category) != "" && Slug(lower, sub.value) != "" {
      var a, b := Slug(lower, category), Slug(lower, sub.value);
      assert (a + "/" + b)[|a|] == '/';
    } else {
      var r := Normalize(lower, s);
      if r != "" { CanonicalHasNoSlash(r); }
    }
  }

  /** An input for which the promise of exactly one slash fails. */
  lemma TrailingSlashLost(lower: char -> char)
    ensures '/' !in Normalize(lower, "config/")
  {
    SlashExactly(lower, "config/");
    assert FirstSlash("config/", 6);
  }

  /** A value that meets the CRD pattern and is changed all the same. */
  lemma ValidButChanged(lower: char -> char)
    requires Lowers(lower)
    ensures Conforms("a--b/c-") && Normalize(lower, "a--b/c-") != "a--b/c-"
  {
    var s := "a--b/c-";
    assert Part("a--b") && Part("c-") && s == "a--b" + "/" + "c-";
    FixedExactly(lower, s);
    if Normal(s) { NormalEnds(s); }
  }

  lemma NormalEnds(s: string)
    requires Normal(s)
    ensures !EndsInHyphen(s)
  {
    if s != "" && !Canonical(s) {
      var a, b :| TwoPart(s, a, b);
      assert s[|s| - 1] == b[|b| - 1];
    }
  }

  lemma NeedsSlash(r: string)
    requires '/' !in r
    ensures !Conforms(r)
  {
  }

  /** A slug is empty exactly when nothing in the segment lowers to a letter or digit. */
  lemma {:induction false} SlugEmpty(lower: char -> char, s: string)
    ensures Slug(lower, s) == "" <==> forall i :: 0 <= i < |s| ==> !Plain(lower(s[i]))
  {
    CollapseTidy(lower, s);
    TrimTidy(Collapse(lower, s));
    CollapseEmpty(lower, s);
  }

  lemma {:induction false} CollapseEmpty(lower: char -> char, s: string)
    ensures Collapse(lower, s) == "" <==> forall i :: 0 <= i < |s| ==> !Plain(lower(s[i]))
    ensures Collapse(lower, s) != "-"
  {
    CollapseTidy(lower, s);
    if s != "" {
      var rest := s[..|s| - 1];
      CollapseEmpty(lower, rest);
      assert forall i :: 0 <= i < |rest| ==> rest[i] == s[i];
    }
  }

  // ---------- nothing alphanumeric is lost ----------

  /** The letters and digits of a text, in order. */
  function Text(s: string): string {
    if s == "" then "" else Text(s[..|s| - 1]) + if Plain(s[|s| - 1]) then [s[|s| - 1]] else []
  }

  function Lowered(lower: char -> char, s: string): string {
    seq(|s|, i requires 0 <= i < |s| => lower(s[i]))
  }

  lemma TextSnoc(s: string, c: char)
    ensures Text(s + [c]) == Text(s) + if Plain(c) then [c] else []
  {
    assert (s + [c])[..|s|] == s;
  }

  lemma {:induction false} CollapseKeepsText(lower: char -> char, s: string)
    ensures Text(Collapse(lower, s)) == Text(Lowered(lower, s))
  {
    if s != "" {
      var rest, c := s[..|s| - 1], lower(s[|s| - 1]);
      CollapseKeepsText(lower, rest);
      assert Lowered(lower, s) == Lowered(lower, rest) + [c];
      TextSnoc(Lowered(lower, rest), c);
      TextSnoc(Collapse(lower, rest), c);
      TextSnoc(Collapse(lower, rest), '-');
    }
  }

  lemma {:induction false} TextAppend(a: string, b: string)
    ensures Text(a + b) == Text(a) + Text(b)
  {
    if b == "" {
      assert a + b == a;
    } else {
      var rest, c := b[..|b| - 1], b[|b| - 1];
      assert a + b == a + rest + [c];
      TextSnoc(a + rest, c);
      TextAppend(a, rest);
    }
  }

  /** The slug of a segment spells out exactly its lower-cased letters and digits, in order, with an "x"
      put in front when they start with a digit. */
  lemma SlugKeepsText(lower: char -> char, s: string)
    ensures var text := Text(Lowered(lower, s));
            Text(Slug(lower, s)) == if text == "" || Letter(text[0]) then text else "x" + text
  {
    hide Text, Collapse, TrimLeft, TrimRight, Tidy, Lowered;
    var b := Collapse(lower, s);
    CollapseKeepsText(lower, s);
    CollapseTidy(lower, s);
    TrimTidy(b);
    TrimKeepsText(b);
    var out := TrimRight(b);
    FirstOfText(out);
    PrefixText(out);
  }

  lemma TrimKeepsText(b: string)
    requires Tidy(b)
    ensures Text(TrimRight(b)) == Text(b)
  {
    TrimTidy(b);
    if EndsInHyphen(b) { assert Text(b) == Text(b[..|b| - 1]) + []; }
  }

  lemma PrefixText(out: string)
    ensures Text("x-" + out) == "x" + Text(out)
  {
    TextAppend("x-", out);
    TextSnoc("x", '-');
    TextSnoc("", 'x');
    assert "x" + ['-'] == "x-" && "" + ['x'] == "x";
  }

  /** A tidy text starts with its first letter or digit. */
  lemma FirstOfText(s: string)
    requires Tidy(s)
    ensures s == "" <==> Text(s) == ""
    ensures s != "" ==> Text(s)[0] == s[0]
  {
    if s != "" {
      assert s == s[..1] + s[1..];
      TextAppend(s[..1], s[1..]);
      assert Text(s[..1]) == [s[0]] by { TextSnoc("", s[0]); assert "" + [s[0]] == s[..1]; }
    }
  }

  /** Cut at its first slash, the value keeps the letters and digits of both sides, each as its slug spells them. */
  lemma NormalizeKeepsText(lower: char -> char, s: string)
    ensures '/' !in s ==> Normalize(lower, s) == Slug(lower, s)
    ensures forall k :: FirstSlash(s, k) ==> Text(Normalize(lower, s)) == Text(Slug(lower, s[..k])) + Text(Slug(lower, s[k + 1..]))
  {
    hide Cut, Slug, Text;
    CutAt(s);
    forall k | FirstSlash(s, k)
      ensures Text(Normalize(lower, s)) == Text(Slug(lower, s[..k])) + Text(Slug(lower, s[k + 1..]))
    {
      assert s[k] in s;
      assert k == |Cut(s).0|;
      var a, b := Slug(lower, s[..k]), Slug(lower, s[k + 1..]);
      TextAppend(a, "/" + b);
      TextAppend("/", b);
      NoText();
      assert a + "/" + b == a + ("/" + b) && "" + Text(b) == Text(b) && Text(a) + "" == Text(a);
    }
  }

  lemma NoText()
    ensures Text("") == "" && Text("/") == ""
  {
    assert "/"[..0] == "";
  }

  // ---------- a slug is the words of its segment ----------

  /** The pieces between the runes that are neither a to z nor 0 to 9, empty ones included. */
  function Pieces(s: string): (ws: seq<string>)
    ensures ws != []
  {
    if s == "" then [""]
    else
      var ws, c := Pieces(s[..|s| - 1]), s[|s| - 1];
      if 'a' <= c <= 'z' || '0' <= c <= '9' then ws[..|ws| - 1] + [ws[|ws| - 1] + [c]] else ws + [""]
  }

  /** The pieces that are not empty, with one hyphen between any two. */
  function Joined(ws: seq<string>): string {
    if ws == [] then "" else And(Joined(ws[..|ws| - 1]), ws[|ws| - 1])
  }

  function And(text: string, w: string): string {
    if w == "" then text else if text == "" then w else text + "-" + w
  }

  /** A slug is the words of the lower-cased segment with one hyphen between any two, and "x-" in front of
      a leading digit: every run of other runes between two kept ones leaves exactly one hyphen, and one
      at either end leaves none. */
  lemma SlugJoinsWords(lower: char -> char, s: string)
    ensures var words := Joined(Pieces(Lowered(lower, s)));
            Slug(lower, s) == if words != "" && '0' <= words[0] <= '9' then "x-" + words else words
  {
    hide Collapse, Pieces, Joined, Tidy, TrimLeft, TrimRight, Lowered;
    var b := Collapse(lower, s);
    var init, w := Built(lower, s);
    CollapseTidy(lower, s);
    TrimTidy(b);
    assert w == "" && init != "" ==> b == init + "-" && b[..|b| - 1] == init;
  }

  lemma JoinedSnoc(ws: seq<string>, w: string)
    ensures Joined(ws + [w]) == And(Joined(ws), w)
  {
    assert (ws + [w])[..|ws|] == ws;
  }

  lemma PiecesSnoc(s: string, c: char)
    ensures var ws := Pieces(s); Pieces(s + [c]) == if Plain(c) then ws[..|ws| - 1] + [ws[|ws| - 1] + [c]] else ws + [""]
  {
    assert (s + [c])[..|s|] == s;
  }

  predicate EndsPlain(s: string) {
    s == "" || (Plain(s[0]) && Plain(s[|s| - 1]))
  }

  /** The builder holds the words that have ended, a hyphen after them, and the word being read. */
  lemma {:induction false} Built(lower: char -> char, s: string) returns (init: string, w: string)
    ensures Collapse(lower, s) == (if init == "" then "" else init + "-") + w
    ensures Joined(Pieces(Lowered(lower, s))) == And(init, w) && EndsPlain(init) && EndsPlain(w)
    ensures var ws := Pieces(Lowered(lower, s)); Joined(ws[..|ws| - 1]) == init && ws[|ws| - 1] == w
  {
    if s == "" {
      init, w := "", "";
    } else {
      var rest, c := s[..|s| - 1], lower(s[|s| - 1]);
      assert Collapse(lower, s) == Push(Collapse(lower, rest), c);
      assert Lowered(lower, s) == Lowered(lower, rest) + [c];
      hide Joined, Collapse, Pieces, Lowered, Push, EndsPlain;
      init, w := Built(lower, rest);
      var ws := Pieces(Lowered(lower, rest));
      PiecesSnoc(Lowered(lower, rest), c);
      Pushed(init, w, c);
      if Plain(c) {
        JoinedSnoc(ws[..|ws| - 1], w + [c]);
        w := w + [c];
      } else {
        JoinedSnoc(ws, "");
        init, w := And(init, w), "";
      }
    }
  }

  /** One more rune on the builder. */
  lemma Pushed(init: string, w: string, c: char)
    requires EndsPlain(init) && EndsPlain(w)
    ensures var b := if init == "" then "" else init + "-";
            Push(b + w, c) == if Plain(c) then b + (w + [c]) else if And(init, w) == "" then "" else And(init, w) + "-" + ""
    ensures EndsPlain(And(init, w)) && (Plain(c) ==> EndsPlain(w + [c])) && EndsPlain("")
  {
    var b := if init == "" then "" else init + "-";
    assert Plain(c) ==> b + w + [c] == b + (w + [c]);
    assert w == "" ==> b + w == b;
    assert w != "" ==> (b + w)[|b + w| - 1] == w[|w| - 1];
  }
}
