// The Markdown table of contents of the versioned tool: headings are collected
// one by one, each gets an anchor link, and the table is rendered as an
// indented bullet list.
module VersionedToc {
  import opened Wrappers
  import opened GoStrings

  /** The characters an anchor link keeps (allowedLinkChars): digits, lower-case ASCII letters and '-'. */
  predicate IsLinkChar(c: char) {
    '0' <= c <= '9' || 'a' <= c <= 'z' || c == '-'
  }

  datatype TocEntry = TocEntry(title: string, link: string, depth: nat)

  datatype TocError =
    | EmptyHeading
    | NoPound
    | HoppedLevel(diff: int, depth: int, previous: int)

  // ------------------------------------------------------------ anchor links

  /** What one character of the lowered title contributes to the link. */
  function SlugChar(c: char): (r: string)
    ensures c == ' ' ==> r == "-"
    ensures c != ' ' ==> (r == [c] <==> IsLinkChar(c)) && (r == [] <==> !IsLinkChar(c))
  {
    if c == ' ' then "-" else if IsLinkChar(c) then [c] else []
  }

  /** The characters of a lowered title, spaces as '-', anything outside [0-9a-z-] dropped. */
  function SlugOf(s: string): (r: string)
    ensures |r| <= |s|
    ensures forall i | 0 <= i < |r| :: IsLinkChar(r[i])
    decreases |s|
  {
    if s == [] then [] else SlugOf(s[..|s| - 1]) + SlugChar(s[|s| - 1])
  }

  /** The anchor of a title before any de-duplication suffix. */
  function Slug(title: string): (r: string)
    ensures |r| > 0 && r[0] == '#'
    ensures forall i | 1 <= i < |r| :: IsLinkChar(r[i])
  {
    "#" + SlugOf(ToLower(title))
  }

  /** Text made only of link characters is its own slug. */
  lemma {:induction false} SlugOfAllowed(s: string)
    requires forall i | 0 <= i < |s| :: IsLinkChar(s[i])
    ensures SlugOf(s) == s
    decreases |s|
  {
    if s != [] {
      var init := s[..|s| - 1];
      assert forall i | 0 <= i < |init| :: IsLinkChar(init[i]) by {
        forall i | 0 <= i < |init| ensures IsLinkChar(init[i]) {
          assert init[i] == s[i];
        }
      }
      SlugOfAllowed(init);
      assert IsLinkChar(s[|s| - 1]);
      assert s[|s| - 1] != ' ';
      assert init + [s[|s| - 1]] == s;
    }
  }

  /** The dotted capital I lowers to i, so it keeps that letter in the anchor. */
  lemma SlugOfDottedCapitalI()
    ensures Slug("\U{0130}d") == "#id"
  {
    assert ToLower("\U{0130}d") == "id" by {
      assert ToLower("\U{0130}d")[0] == 'i' && ToLower("\U{0130}d")[1] == 'd';
    }
    SlugOfAllowed("id");
  }

  /** The Kelvin sign lowers to k, so it keeps that letter in the anchor. */
  lemma SlugOfKelvinSign()
    ensures Slug("\U{212A}m") == "#km"
  {
    assert ToLower("\U{212A}m") == "km" by {
      assert ToLower("\U{212A}m")[0] == 'k' && ToLower("\U{212A}m")[1] == 'm';
    }
    SlugOfAllowed("km");
  }

  /** Taking the slug of a slug's text changes nothing. */
  lemma SlugIdempotent(title: string)
    ensures Slug(Slug(title)[1..]) == Slug(title)
  {
    var t := Slug(title)[1..];
    forall i | 0 <= i < |t| ensures IsLinkChar(t[i]) && !('A' <= t[i] <= 'Z') {
      assert t[i] == Slug(title)[i + 1];
    }
    assert ToLower(t) == t;
    SlugOfAllowed(t);
  }

  /** How many times x occurs in xs. */
  function Count(xs: seq<string>, x: string): (n: nat)
    ensures n <= |xs|
    ensures n == 0 <==> x !in xs
    decreases |xs|
  {
    if xs == [] then 0 else Count(xs[..|xs| - 1], x) + (if xs[|xs| - 1] == x then 1 else 0)
  }

  /**
   * The link handed out for a title when the slugs in `used` were handed out
   * before: the plain slug on its first use, and on its k-th use (k >= 2) the
   * slug followed by "-" and k - 1.
   */
  function Link(used: seq<string>, title: string): (r: string)
    ensures Count(used, Slug(title)) == 0 ==> r == Slug(title)
    ensures Count(used, Slug(title)) > 0 ==> r == Slug(title) + "-" + Itoa(Count(used, Slug(title)))
  {
    var b := Slug(title);
    var k := Count(used, b);
    if k == 0 then b else b + "-" + Itoa(k)
  }

  /** The slugs of a list of titles, in order. */
  function SlugsOf(titles: seq<string>): (r: seq<string>)
    ensures |r| == |titles| && forall i | 0 <= i < |r| :: r[i] == Slug(titles[i])
  {
    seq(|titles|, i requires 0 <= i < |titles| => Slug(titles[i]))
  }

  /** The links handed out, one title after another, when `used` were handed out before. */
  function Links(used: seq<string>, titles: seq<string>): (r: seq<string>)
    ensures |r| == |titles|
    ensures forall i | 0 <= i < |r| :: r[i] == Link(used + SlugsOf(titles[..i]), titles[i])
  {
    seq(|titles|, i requires 0 <= i < |titles| => Link(used + SlugsOf(titles[..i]), titles[i]))
  }

  /** Once a title's slug has been handed out, the title only gets suffixed links. */
  lemma LinkAfterUse(used: seq<string>, title: string)
    requires Slug(title) in used
    ensures Link(used, title) != Slug(title)
  {
    var b := Slug(title);
    assert |Link(used, title)| > |b|;
  }

  /**
   * Rendering the table twice: every slug of the first rendering has been handed
   * out, so each link of the second rendering carries a suffix.
   */
  lemma SecondRenderSuffixed(used: seq<string>, titles: seq<string>, i: nat)
    requires i < |titles|
    ensures Links(used + SlugsOf(titles), titles)[i] != Slug(titles[i])
  {
    var used2 := used + SlugsOf(titles);
    var u := used2 + SlugsOf(titles[..i]);
    assert SlugsOf(titles)[i] == Slug(titles[i]);
    assert Slug(titles[i]) in used2;
    assert Slug(titles[i]) in u by {
      assert used2 <= u;
      assert used2[|used| + i] == Slug(titles[i]);
      assert u[|used| + i] == Slug(titles[i]);
    }
    LinkAfterUse(u, titles[i]);
  }

  // ---------------------------------------------------------------- headings

  /** The depth (bytes before the first space) and the trimmed title of a heading line. */
  function Heading(s: string): (nat, string)
    requires ' ' in s
  {
    CharIndex(s, ' ');
    var arr := SplitN2(s, " ");
    (|Utf8(arr[0])|, TrimSpace(arr[1]))
  }

  /** Whether AddHeading's first two checks let the line through. */
  predicate IsHeadingLine(s: string) {
    s != "" && HasPrefix(TrimSpace(s), "#")
  }

  // ------------------------------------------------------------------ output

  /** Two spaces per level. */
  function Indent(n: nat): (r: string)
    ensures |r| == 2 * n && forall i | 0 <= i < |r| :: r[i] == ' '
  {
    if n == 0 then "" else Indent(n - 1) + "  "
  }

  /** One line of the table: indentation, the bullet, then `[title](link)`, then a newline. */
  function TocLine(e: TocEntry, minDepth: int, sep: string, link: string): (r: string)
    requires minDepth <= e.depth
    ensures |r| > 2 * (e.depth - minDepth) && r[..2 * (e.depth - minDepth)] == Indent(e.depth - minDepth)
    ensures r[|r| - 1] == '\n'
  {
    var r := Indent(e.depth - minDepth) + sep + " [" + e.title + "](" + link + ")" + "\n";
    assert r[..|Indent(e.depth - minDepth)|] == Indent(e.depth - minDepth);
    r
  }

  /** The lines of the first n entries. */
  function TocPrefix(entries: seq<TocEntry>, minDepth: int, sep: string, links: seq<string>, n: nat): string
    requires n <= |entries| && |links| == |entries|
    requires forall i | 0 <= i < |entries| :: minDepth <= entries[i].depth
    decreases n
  {
    if n == 0 then "" else TocPrefix(entries, minDepth, sep, links, n - 1) + TocLine(entries[n - 1], minDepth, sep, links[n - 1])
  }

  /** The table: one line per entry, in order, with the given links. */
  function TocText(entries: seq<TocEntry>, minDepth: int, sep: string, links: seq<string>): string
    requires |links| == |entries|
    requires forall i | 0 <= i < |entries| :: minDepth <= entries[i].depth
  {
    TocPrefix(entries, minDepth, sep, links, |entries|)
  }

  /** The lines of fewer entries are a prefix of the lines of more. */
  lemma {:induction false} TocPrefixGrows(entries: seq<TocEntry>, minDepth: int, sep: string, links: seq<string>,
                                          n: nat, m: nat)
    requires n <= m <= |entries| && |links| == |entries|
    requires forall i | 0 <= i < |entries| :: minDepth <= entries[i].depth
    ensures var a, b := TocPrefix(entries, minDepth, sep, links, n), TocPrefix(entries, minDepth, sep, links, m);
      |a| <= |b| && b[..|a|] == a
    decreases m
  {
    if n < m {
      TocPrefixGrows(entries, minDepth, sep, links, n, m - 1);
      var a := TocPrefix(entries, minDepth, sep, links, n);
      var c := TocPrefix(entries, minDepth, sep, links, m - 1);
      var line := TocLine(entries[m - 1], minDepth, sep, links[m - 1]);
      assert (c + line)[..|a|] == c[..|a|];
    }
  }

  /**
   * The table holds one line per entry, in insertion order: entry i's line sits
   * right after the lines of the entries before it.
   */
  lemma TocTextLineAt(entries: seq<TocEntry>, minDepth: int, sep: string, links: seq<string>, i: nat)
    requires i < |entries| && |links| == |entries|
    requires forall k | 0 <= k < |entries| :: minDepth <= entries[k].depth
    ensures var t := TocText(entries, minDepth, sep, links);
      var a, b := |TocPrefix(entries, minDepth, sep, links, i)|, |TocPrefix(entries, minDepth, sep, links, i + 1)|;
      a <= b <= |t| && t[a..b] == TocLine(entries[i], minDepth, sep, links[i])
  {
    TocPrefixGrows(entries, minDepth, sep, links, i + 1, |entries|);
    var t := TocText(entries, minDepth, sep, links);
    var p := TocPrefix(entries, minDepth, sep, links, i);
    var q := TocPrefix(entries, minDepth, sep, links, i + 1);
    var line := TocLine(entries[i], minDepth, sep, links[i]);
    assert q == p + line;
    assert t[..|q|] == q;
    assert t[|p|..|q|] == q[|p|..];
  }

  /** The slugs handed out once the first n entries have been linked, after `used`. */
  function UsedAfter(used: seq<string>, entries: seq<TocEntry>, n: nat): (r: seq<string>)
    requires n <= |entries|
    ensures |r| == |used| + n
    decreases n
  {
    if n == 0 then used else UsedAfter(used, entries, n - 1) + [Slug(entries[n - 1].title)]
  }

  /** The lines of the first n entries, each linked as it comes, after `used`. */
  function Rendered(entries: seq<TocEntry>, minDepth: int, sep: string, used: seq<string>, n: nat): string
    requires n <= |entries|
    requires forall i | 0 <= i < |entries| :: minDepth <= entries[i].depth
    decreases n
  {
    if n == 0 then ""
    else
      var link := Link(UsedAfter(used, entries, n - 1), entries[n - 1].title);
      Rendered(entries, minDepth, sep, used, n - 1) + TocLine(entries[n - 1], minDepth, sep, link)
  }

  /** Linking entry by entry hands out the slugs of the titles, in order. */
  lemma {:induction false} UsedAfterSlugs(used: seq<string>, entries: seq<TocEntry>, n: nat)
    requires n <= |entries|
    ensures UsedAfter(used, entries, n) == used + SlugsOf(Titles(entries)[..n])
    decreases n
  {
    if n > 0 {
      UsedAfterSlugs(used, entries, n - 1);
      var titles := Titles(entries);
      PrefixSnoc(titles, n - 1);
      SlugsOfSnoc(titles[..n - 1], titles[n - 1]);
      SnocAssoc(used, SlugsOf(titles[..n - 1]), Slug(titles[n - 1]));
    }
  }

  /** Entry k's link, as `Links` gives it, is the one handed out after the first k entries were linked. */
  lemma LinksAt(used: seq<string>, entries: seq<TocEntry>, k: nat)
    requires k < |entries|
    ensures Links(used, Titles(entries))[k] == Link(UsedAfter(used, entries, k), entries[k].title)
  {
    var t := Titles(entries);
    UsedAfterSlugs(used, entries, k);
    assert t[k] == entries[k].title;
  }

  /** Rendering entry by entry gives the table with the links of `Links`. */
  lemma {:induction false} RenderedIsTocPrefix(entries: seq<TocEntry>, minDepth: int, sep: string,
                                               used: seq<string>, n: nat)
    requires n <= |entries|
    requires forall i | 0 <= i < |entries| :: minDepth <= entries[i].depth
    ensures Rendered(entries, minDepth, sep, used, n)
      == TocPrefix(entries, minDepth, sep, Links(used, Titles(entries)), n)
    decreases n
  {
    if n > 0 {
      RenderedIsTocPrefix(entries, minDepth, sep, used, n - 1);
      LinksAt(used, entries, n - 1);
    }
  }

  /** The whole table, rendered entry by entry, and the slugs it hands out. */
  lemma RenderedIsTocText(entries: seq<TocEntry>, minDepth: int, sep: string, used: seq<string>)
    requires forall i | 0 <= i < |entries| :: minDepth <= entries[i].depth
    ensures Rendered(entries, minDepth, sep, used, |entries|) == TocText(entries, minDepth, sep, Links(used, Titles(entries)))
    ensures UsedAfter(used, entries, |entries|) == used + SlugsOf(Titles(entries))
  {
    RenderedIsTocPrefix(entries, minDepth, sep, used, |entries|);
    UsedAfterSlugs(used, entries, |entries|);
    assert Titles(entries)[..|entries|] == Titles(entries);
  }

  // ------------------------------------------------------------------- state

  function Titles(entries: seq<TocEntry>): (r: seq<string>)
    ensures |r| == |entries| && forall i | 0 <= i < |r| :: r[i] == entries[i].title
  {
    seq(|entries|, i requires 0 <= i < |entries| => entries[i].title)
  }

  /** linkRef holds exactly the slugs handed out, each with how many times it was. */
  ghost predicate Counts(linkRef: map<string, int>, slugs: seq<string>) {
    (forall b | b in linkRef :: b in slugs && linkRef[b] == Count(slugs, b))
    && (forall b | b in slugs :: b in linkRef)
  }

  /** The depth of the last entry, 0 when there is none. */
  function LastDepth(entries: seq<TocEntry>): nat {
    if entries == [] then 0 else entries[|entries| - 1].depth
  }

  /** b may follow a: at most one level deeper, unless a has depth 0. */
  predicate StepOk(a: TocEntry, b: TocEntry) {
    a.depth == 0 || b.depth <= a.depth + 1
  }

  /** Entry i may follow the entry before it. */
  predicate StepAt(entries: seq<TocEntry>, i: int)
    requires 0 < i < |entries|
  {
    StepOk(entries[i - 1], entries[i])
  }

  predicate Within(e: TocEntry, minDepth: int, maxDepth: int) {
    minDepth <= e.depth <= maxDepth
  }

  /**
   * Every entry lies between minDepth and maxDepth, lastDepth is the depth of
   * the last entry, and no entry is more than one level below the entry
   * before it unless that one has depth 0.
   */
  ghost predicate Shaped(entries: seq<TocEntry>, minDepth: int, maxDepth: int, lastDepth: int) {
    (forall i | 0 <= i < |entries| :: Within(entries[i], minDepth, maxDepth))
    && lastDepth == LastDepth(entries)
    && (forall i | 0 < i < |entries| :: StepAt(entries, i))
  }

  /** Widening the depth bounds keeps the shape. */
  lemma ShapedWiden(entries: seq<TocEntry>, minDepth: int, maxDepth: int, lastDepth: int, lo: int, hi: int)
    requires Shaped(entries, minDepth, maxDepth, lastDepth) && lo <= minDepth && maxDepth <= hi
    ensures Shaped(entries, lo, hi, lastDepth)
  {
    assert forall i | 0 <= i < |entries| :: Within(entries[i], minDepth, maxDepth);
  }

  /** Appending a heading within the bounds that does not hop a level keeps the shape. */
  lemma ShapedAppend(entries: seq<TocEntry>, minDepth: int, maxDepth: int, lastDepth: int, h: TocEntry)
    requires Shaped(entries, minDepth, maxDepth, lastDepth) && Within(h, minDepth, maxDepth)
    requires lastDepth == 0 || h.depth <= lastDepth + 1
    ensures Shaped(entries + [h], minDepth, maxDepth, h.depth)
  {
    var e := entries + [h];
    forall i | 0 <= i < |e| ensures Within(e[i], minDepth, maxDepth) {
      if i < |entries| {
        assert e[i] == entries[i];
      }
    }
    forall i | 0 < i < |e| ensures StepAt(e, i) {
      if i < |entries| {
        assert StepAt(entries, i);
        assert e[i - 1] == entries[i - 1] && e[i] == entries[i];
      } else {
        assert e[i - 1] == entries[|entries| - 1];
      }
    }
  }

  /** The Markdown table of contents being collected. */
  class TableOfContents {
    var filePath: string
    var entries: seq<TocEntry>
    var maxDepth: int
    var minDepth: int
    var lastDepth: int
    var sep: string
    var linkRef: map<string, int>
    /** The slugs handed out so far, in order; linkRef counts them. */
    ghost var slugs: seq<string>

    /**
     * linkRef counts how often each slug has been handed out; every entry lies
     * between minDepth and maxDepth; lastDepth is the depth of the last entry;
     * and no entry is more than one level below the one before it, unless that
     * one has depth 0.
     */
    ghost predicate Valid()
      reads this
    {
      Counts(linkRef, slugs) && Shaped(entries, minDepth, maxDepth, lastDepth)
    }

    /** NewTableOfContents. */
    constructor ()
      ensures Valid()
      ensures filePath == "README.md" && entries == [] && minDepth == 1000 && maxDepth == 0
      ensures lastDepth == 0 && sep == "*" && linkRef == map[] && slugs == []
    {
      filePath := "README.md";
      entries := [];
      minDepth := 1000;
      maxDepth := 0;
      lastDepth := 0;
      sep := "*";
      linkRef := map[];
      slugs := [];
    }

    /** An empty path is ignored. */
    method AddFilePath(s: string)
      modifies this
      ensures filePath == (if s == "" then old(filePath) else s)
      ensures entries == old(entries) && minDepth == old(minDepth) && maxDepth == old(maxDepth)
      ensures lastDepth == old(lastDepth) && sep == old(sep) && linkRef == old(linkRef) && slugs == old(slugs)
    {
      if s == "" {
        return;
      }
      filePath := s;
    }

    /**
     * Adds a heading line.  The line must be non-empty and start with '#' once
     * trimmed; min and max depth then follow the heading even when it is
     * rejected for hopping more than one level below the previous heading.
     */
    method AddHeading(s: string) returns (err: Option<TocError>)
      requires Valid()
      requires IsHeadingLine(s) ==> ' ' in s
      modifies this
      ensures Valid()
      ensures s == "" ==> err == Some(EmptyHeading)
      ensures s != "" && !IsHeadingLine(s) ==> err == Some(NoPound)
      ensures !IsHeadingLine(s) ==> (entries == old(entries) && minDepth == old(minDepth)
        && maxDepth == old(maxDepth) && lastDepth == old(lastDepth))
      ensures IsHeadingLine(s) ==> (var (d, title) := Heading(s);
        minDepth == (if d < old(minDepth) then d else old(minDepth))
        && maxDepth == (if d > old(maxDepth) then d else old(maxDepth))
        && (err.None? <==> !(d - old(lastDepth) > 1 && old(lastDepth) > 0))
        && (err.Some? ==> (err == Some(HoppedLevel(d - old(lastDepth), d, old(lastDepth)))
          && entries == old(entries) && lastDepth == old(lastDepth)))
        && (err.None? ==> entries == old(entries) + [TocEntry(title, "", d)] && lastDepth == d))
      ensures filePath == old(filePath) && sep == old(sep) && linkRef == old(linkRef) && slugs == old(slugs)
    {
      if s == "" {
        return Some(EmptyHeading);
      }
      if !HasPrefix(TrimSpace(s), "#") {
        return Some(NoPound);
      }
      var (depth, title) := Heading(s);
      err := AddEntry(depth, title);
    }

    /**
     * The second half of AddHeading, once the line is parsed: min and max depth
     * follow the heading, then a hop of more than one level below a previous
     * heading (of non-zero depth) is rejected, and otherwise the entry is appended.
     */
    method AddEntry(depth: nat, title: string) returns (err: Option<TocError>)
      requires Valid()
      modifies this
      ensures Valid()
      ensures minDepth == (if depth < old(minDepth) then depth else old(minDepth))
      ensures maxDepth == (if depth > old(maxDepth) then depth else old(maxDepth))
      ensures err.None? <==> !(depth - old(lastDepth) > 1 && old(lastDepth) > 0)
      ensures err.Some? ==> (err == Some(HoppedLevel(depth - old(lastDepth), depth, old(lastDepth)))
        && entries == old(entries) && lastDepth == old(lastDepth))
      ensures err.None? ==> entries == old(entries) + [TocEntry(title, "", depth)] && lastDepth == depth
      ensures filePath == old(filePath) && sep == old(sep) && linkRef == old(linkRef) && slugs == old(slugs)
    {
      var h := TocEntry(title, "", depth);
      if h.depth > maxDepth {
        maxDepth := h.depth;
      }
      if h.depth < minDepth {
        minDepth := h.depth;
      }
      ShapedWiden(entries, old(minDepth), old(maxDepth), lastDepth, minDepth, maxDepth);
      var depthDiff := h.depth - lastDepth;
      if depthDiff > 1 && lastDepth > 0 {
        return Some(HoppedLevel(depthDiff, h.depth, lastDepth));
      }
      ShapedAppend(entries, minDepth, maxDepth, lastDepth, h);
      lastDepth := h.depth;
      entries := entries + [h];
      err := None;
    }

    /** getLink: the title's anchor, counting the use in linkRef. */
    method GetLink(s: string) returns (link: string)
      requires Counts(linkRef, slugs)
      modifies this`linkRef, this`slugs
      ensures Counts(linkRef, slugs)
      ensures link == Link(old(slugs), s)
      ensures slugs == old(slugs) + [Slug(s)]
      ensures linkRef == old(linkRef)[Slug(s) := Count(old(slugs), Slug(s)) + 1]
    {
      link := SlugLoop(s);
      var b := link;
      CountsAdd(linkRef, slugs, b);
      if b in linkRef {
        var k := linkRef[b];
        assert k == Count(slugs, b);
        linkRef := linkRef[b := k + 1];
        link := b + "-" + Itoa(k);
      } else {
        linkRef := linkRef[b := 1];
      }
      slugs := slugs + [b];
    }

    /**
     * ToString: one line per entry in insertion order, indented two spaces per
     * level below minDepth, as `sep [title](link)`; each link is handed out in
     * turn, so the links depend on the slugs handed out before.
     */
    /** Appends the line of entry i, with the next link handed out for its title, to the first i lines. */
    method RenderEntry(es: seq<TocEntry>, lo: int, bullet: string, i: nat, ghost used: seq<string>, done: string)
      returns (r: string)
      requires i < |es| && forall k | 0 <= k < |es| :: lo <= es[k].depth
      requires Counts(linkRef, slugs) && slugs == UsedAfter(used, es, i)
      requires done == Rendered(es, lo, bullet, used, i)
      modifies this`linkRef, this`slugs
      ensures Counts(linkRef, slugs) && slugs == UsedAfter(used, es, i + 1)
      ensures r == Rendered(es, lo, bullet, used, i + 1)
    {
      var link := GetLink(es[i].title);
      r := done + TocLine(es[i], lo, bullet, link);
    }

    /** The rendering loop: the line of every entry of es, in order, each with the next link for its title. */
    method RenderAll(es: seq<TocEntry>, lo: int, bullet: string) returns (r: string)
      requires Counts(linkRef, slugs) && forall k | 0 <= k < |es| :: lo <= es[k].depth
      modifies this`linkRef, this`slugs
      ensures Counts(linkRef, slugs)
      ensures r == Rendered(es, lo, bullet, old(slugs), |es|)
      ensures slugs == UsedAfter(old(slugs), es, |es|)
    {
      ghost var used := slugs;
      r := "";
      var i := 0;
      while i < |es|
        invariant 0 <= i <= |es|
        invariant Counts(linkRef, slugs)
        invariant slugs == UsedAfter(used, es, i)
        invariant r == Rendered(es, lo, bullet, used, i)
      {
        r := RenderEntry(es, lo, bullet, i, used, r);
        i := i + 1;
      }
    }

    /**
     * The table as Markdown: one line per entry in insertion order, each with
     * the next link handed out for its title; those slugs are then used too.
     * RenderedIsTocText restates both results with `TocText` and `Links`.
     */
    method ToString() returns (r: string)
      requires Valid()
      modifies this`linkRef, this`slugs
      ensures Valid()
      ensures r == Rendered(entries, minDepth, sep, old(slugs), |entries|)
      ensures slugs == UsedAfter(old(slugs), entries, |entries|)
    {
      assert forall k | 0 <= k < |entries| :: minDepth <= entries[k].depth by {
        assert forall k | 0 <= k < |entries| :: Within(entries[k], minDepth, maxDepth);
      }
      r := RenderAll(entries, minDepth, sep);
      assert Shaped(entries, minDepth, maxDepth, lastDepth);
    }
  }

  /** The character loop of getLink: the lowered title's slug characters after '#'. */
  method SlugLoop(s: string) returns (link: string)
    ensures link == Slug(s)
  {
    var low := ToLower(s);
    link := "#";
    var i := 0;
    while i < |low|
      invariant 0 <= i <= |low|
      invariant link == "#" + SlugOf(low[..i])
    {
      SlugOfStep(low, i);
      var c := low[i];
      if c == ' ' {
        link := link + "-";
      } else if IsLinkChar(c) {
        link := link + [c];
      }
      i := i + 1;
    }
    assert low[..i] == low;
  }

  lemma SlugOfStep(s: string, i: nat)
    requires i < |s|
    ensures SlugOf(s[..i + 1]) == SlugOf(s[..i]) + SlugChar(s[i])
  {
    assert s[..i + 1][..i] == s[..i];
  }

  /** Handing out slug b once more: its count goes up by one, or starts at one. */
  lemma CountsAdd(linkRef: map<string, int>, slugs: seq<string>, b: string)
    requires Counts(linkRef, slugs)
    ensures b in linkRef <==> Count(slugs, b) > 0
    ensures b in linkRef ==> Counts(linkRef[b := linkRef[b] + 1], slugs + [b])
    ensures b !in linkRef ==> Counts(linkRef[b := 1], slugs + [b])
  {
    CountSnoc(slugs, b);
    var m := if b in linkRef then linkRef[b := linkRef[b] + 1] else linkRef[b := 1];
    forall x | x in m ensures x in slugs + [b] && m[x] == Count(slugs + [b], x) {
      if x != b {
        assert m[x] == linkRef[x];
      }
    }
    forall x | x in slugs + [b] ensures x in m {
      if x != b {
        assert x in slugs;
      }
    }
    assert Counts(m, slugs + [b]);
  }

  lemma PrefixSnoc<T>(s: seq<T>, i: nat)
    requires i < |s|
    ensures s[..i + 1] == s[..i] + [s[i]]
  { }

  lemma SnocAssoc<T>(a: seq<T>, b: seq<T>, x: T)
    ensures (a + b) + [x] == a + (b + [x])
  { }

  lemma SlugsOfSnoc(ts: seq<string>, t: string)
    ensures SlugsOf(ts + [t]) == SlugsOf(ts) + [Slug(t)]
  {
  }

  lemma CountSnoc(xs: seq<string>, x: string)
    ensures forall y :: Count(xs + [x], y) == Count(xs, y) + (if x == y then 1 else 0)
  {
    forall y ensures Count(xs + [x], y) == Count(xs, y) + (if x == y then 1 else 0) {
      assert (xs + [x])[..|xs|] == xs;
    }
  }
}
