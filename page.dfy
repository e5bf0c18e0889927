/** The logic of the page in src/app/page.tsx: the two views derived from the
    last response (`bullets` and `investorAngle`, heuristic text scans that
    never fail) and the `Home` component's submit handler, whose state is
    `isLoading` and `result`. The regular expressions of the source are
    written out as scans over the string. */
module Page {
  import opened Js
  import opened Route

  const BulletChar: char := '\U{2022}'

  // ----- bullets: split, trim, drop empties, strip list markers, keep five -----

  /** A character that delimits a bullet on its own: line feed, `•`, `-`.
      (A carriage return delimits only when a line feed follows it.) */
  predicate IsDelimChar(c: char) {
    c == '\n' || c == BulletChar || c == '-'
  }

  predicate NoDelimIn(p: string) {
    forall i :: 0 <= i < |p| ==> !IsDelimChar(p[i])
  }

  /** The length of the match of `/\r?\n|•|•|\-/` at index `i`, or 0. */
  function DelimLen(s: string, i: nat): nat
    requires i < |s|
  {
    if s[i] == '\r' && i + 1 < |s| && s[i + 1] == '\n' then 2
    else if IsDelimChar(s[i]) then 1
    else 0
  }

  /** The leftmost index at or after `i` where a delimiter matches, or `|s|`. */
  function FirstDelim(s: string, i: nat): (k: nat)
    requires i <= |s|
    ensures i <= k <= |s|
    ensures forall j :: i <= j < k ==> DelimLen(s, j) == 0
    ensures k < |s| ==> DelimLen(s, k) > 0
    decreases |s| - i
  {
    if i == |s| || DelimLen(s, i) > 0 then i else FirstDelim(s, i + 1)
  }

  /** `s.split(/\r?\n|•|•|\-/)`: the pieces between delimiter matches,
      in order. There is always at least one piece, and no piece holds a
      line feed, a `•` or a `-`. */
  function Split(s: string): (pieces: seq<string>)
    ensures |pieces| >= 1
    ensures forall k :: 0 <= k < |pieces| ==> NoDelimIn(pieces[k])
    decreases |s|
  {
    var k := FirstDelim(s, 0);
    assert NoDelimIn(s[..k]) by {
      forall j | 0 <= j < k ensures !IsDelimChar(s[..k][j]) {
        assert s[..k][j] == s[j] && DelimLen(s, j) == 0;
      }
    }
    if k == |s| then
      assert s[..k] == s;
      [s]
    else
      [s[..k]] + Split(s[k + DelimLen(s, k)..])
  }

  /** What `trim` leaves of text without delimiters has none either. */
  lemma TrimKeepsNoDelim(p: string)
    ensures NoDelimIn(p) ==> NoDelimIn(Trim(p))
  {
    if NoDelimIn(p) {
      TrimAvoids(p, '\n');
      TrimAvoids(p, BulletChar);
      TrimAvoids(p, '-');
    }
  }

  /** `.map((s) => s.trim()).filter(Boolean)`: the non-empty trimmed pieces, in order. */
  function Survivors(pieces: seq<string>): (live: seq<string>)
    ensures |live| <= |pieces|
    ensures forall k :: 0 <= k < |live| ==> live[k] != "" && Unpadded(live[k])
    ensures (forall j :: 0 <= j < |pieces| ==> NoDelimIn(pieces[j])) ==>
              forall k :: 0 <= k < |live| ==> NoDelimIn(live[k])
  {
    if pieces == [] then []
    else
      var t := Trim(pieces[0]);
      TrimKeepsNoDelim(pieces[0]);
      (if t == "" then [] else [t]) + Survivors(pieces[1..])
  }

  /** The filter keeps source order: the survivors of two runs of pieces are
      the survivors of the first run followed by those of the second. */
  lemma {:induction false} SurvivorsAppend(a: seq<string>, b: seq<string>)
    ensures Survivors(a + b) == Survivors(a) + Survivors(b)
    decreases |a|
  {
    if a == [] {
      assert a + b == b;
    } else {
      var t := Trim(a[0]);
      var h: seq<string> := if t == "" then [] else [t];
      assert (a + b)[0] == a[0];
      assert (a + b)[1..] == a[1..] + b;
      assert Survivors(a + b) == h + Survivors(a[1..] + b);
      SurvivorsAppend(a[1..], b);
      assert h + (Survivors(a[1..]) + Survivors(b)) == (h + Survivors(a[1..])) + Survivors(b);
    }
  }

  /** A character of the class `[•\-\d\.)\s]`. */
  predicate IsMarker(c: char) {
    c == BulletChar || c == '-' || ('0' <= c <= '9') || c == '.' || c == ')' || IsSpace(c)
  }

  /** `s.replace(/^[•\-\d\.)\s]+/, '')`: the suffix left once the leading run
      of list-marker characters is removed. */
  function StripMarkers(s: string): (r: string)
    ensures |r| <= |s| && r == s[|s| - |r|..]
    ensures forall i :: 0 <= i < |s| - |r| ==> IsMarker(s[i])
    ensures r == [] || !IsMarker(r[0])
    ensures NoDelimIn(s) ==> NoDelimIn(r)
    ensures r != [] ==> r[|r| - 1] == s[|s| - 1]
    decreases |s|
  {
    if s != [] && IsMarker(s[0]) then StripMarkers(s[1..]) else s
  }

  /** `.map((s) => s.replace(/^[•\-\d\.)\s]+/, ''))`. */
  function StripEach(live: seq<string>): (r: seq<string>)
    ensures |r| == |live|
    ensures forall k :: 0 <= k < |r| ==> r[k] == StripMarkers(live[k])
  {
    seq(|live|, k requires 0 <= k < |live| => StripMarkers(live[k]))
  }

  /** A displayed bullet: no delimiter, and either empty or starting with a
      character that is not a list marker and ending with one that is not
      white space. */
  predicate Displayable(b: string) {
    NoDelimIn(b) && (b == [] || (!IsMarker(b[0]) && !IsSpace(b[|b| - 1])))
  }

  /** `bullets`, for `result?.summary`. At most five entries, none for an
      absent or empty summary, each displayable. An entry may be empty: a
      piece made only of marker characters, such as `3.`, passes the
      empty-filter before it is stripped. */
  function Bullets(summary: Option<string>): (bullets: seq<string>)
    ensures |bullets| <= 5
    ensures summary.None? || summary.value == "" ==> bullets == []
    ensures forall k :: 0 <= k < |bullets| ==> Displayable(bullets[k])
  {
    if summary.None? || summary.value == "" then []
    else
      var live := Survivors(Split(summary.value));
      StrippedShape(live);
      Take(StripEach(live), 5)
  }

  /** Stripping the markers of non-empty, unpadded pieces without delimiters
      leaves displayable entries, and so does keeping the first five. */
  lemma StrippedShape(live: seq<string>)
    requires forall k :: 0 <= k < |live| ==> live[k] != "" && Unpadded(live[k]) && NoDelimIn(live[k])
    ensures forall k :: 0 <= k < |live| ==> Displayable(StripEach(live)[k])
    ensures var r := Take(StripEach(live), 5);
            forall k :: 0 <= k < |r| ==> Displayable(r[k])
  {
    var stripped := StripEach(live);
    forall k | 0 <= k < |live|
      ensures Displayable(stripped[k])
    {
      var p := live[k];
      assert !IsSpace(p[|p| - 1]);
    }
    var r := Take(stripped, 5);
    forall k | 0 <= k < |r|
      ensures Displayable(r[k])
    {
      assert r[k] == stripped[k];
    }
  }

  /** `bullets` for a non-empty summary, step by step. */
  lemma BulletsOfText(s: string)
    requires s != ""
    ensures Bullets(Some(s)) == Take(StripEach(Survivors(Split(s))), 5)
  {
  }

  /** Text that splits into itself: no delimiter character and no carriage
      return at the end (one there would pair with a following line feed). */
  predicate Plain(p: string) {
    NoDelimIn(p) && (p == [] || p[|p| - 1] != '\r')
  }

  /** The four strings the split pattern matches. */
  predicate IsDelimiter(d: string) {
    d == "\n" || d == "\r\n" || d == [BulletChar] || d == "-"
  }

  /** `FirstDelim` is pinned down by its contract. */
  lemma FirstDelimIs(s: string, i: nat, k: nat)
    requires i <= k <= |s|
    requires forall j :: i <= j < k ==> DelimLen(s, j) == 0
    requires k < |s| ==> DelimLen(s, k) > 0
    ensures FirstDelim(s, i) == k
  {
  }

  /** Text is a single piece exactly when it holds no line feed, `•` or `-`:
      a carriage return that no line feed follows, also one at the very end,
      does not split. */
  lemma LoneCarriageReturnKeepsLine(s: string)
    ensures Split(s) == [s] <==> NoDelimIn(s)
  {
    if NoDelimIn(s) {
      forall j | 0 <= j < |s| ensures DelimLen(s, j) == 0 {
        if j + 1 < |s| { assert !IsDelimChar(s[j + 1]); }
      }
      FirstDelimIs(s, 0, |s|);
      assert s[..|s|] == s;
    } else {
      assert NoDelimIn(Split(s)[0]);
    }
  }

  /** Plain text followed by a delimiter is split off as the first piece. */
  lemma SplitPlainThen(p: string, d: string, rest: string)
    requires Plain(p) && IsDelimiter(d)
    ensures Split(p + d + rest) == [p] + Split(rest)
  {
    var s := p + d + rest;
    forall j | 0 <= j < |p| ensures DelimLen(s, j) == 0 {
      assert s[j] == p[j];
      if j + 1 < |p| { assert s[j + 1] == p[j + 1]; }
    }
    assert s[|p|] == d[0];
    if d == "\r\n" { assert s[|p| + 1] == d[1]; }
    assert DelimLen(s, |p|) == |d|;
    FirstDelimIs(s, 0, |p|);
    assert s[..|p|] == p;
    assert s[|p| + |d|..] == rest;
  }

  /** A delimiter at the very start splits off an empty piece. */
  lemma SplitAfterDelimiter(d: string, rest: string)
    requires IsDelimiter(d)
    ensures Split(d + rest) == [""] + Split(rest)
  {
    var s := d + rest;
    assert s[0] == d[0];
    if d == "\r\n" { assert s[1] == d[1]; }
    assert DelimLen(s, 0) == |d|;
    FirstDelimIs(s, 0, 0);
    assert s[|d|..] == rest;
  }

  /** Joins pieces with the given delimiters, `ds[k]` between piece `k` and
      piece `k + 1`. */
  function JoinWith(pieces: seq<string>, ds: seq<string>): string
    requires |pieces| >= 1 && |ds| == |pieces| - 1
  {
    if |pieces| == 1 then pieces[0] else pieces[0] + ds[0] + JoinWith(pieces[1..], ds[1..])
  }

  /** Splitting undoes joining plain pieces with any mix of the delimiters. */
  lemma {:induction false} SplitJoin(pieces: seq<string>, ds: seq<string>)
    requires |pieces| >= 1 && |ds| == |pieces| - 1
    requires forall k :: 0 <= k < |ds| ==> IsDelimiter(ds[k])
    requires forall k :: 0 <= k < |pieces| ==> Plain(pieces[k])
    ensures Split(JoinWith(pieces, ds)) == pieces
    decreases |pieces|
  {
    if |pieces| == 1 {
      LoneCarriageReturnKeepsLine(pieces[0]);
    } else {
      SplitPlainThen(pieces[0], ds[0], JoinWith(pieces[1..], ds[1..]));
      SplitJoin(pieces[1..], ds[1..]);
      assert pieces == [pieces[0]] + pieces[1..];
    }
  }

  /** The delimiter matches `split` consumes, in order. */
  function Delimiters(s: string): (ds: seq<string>)
    ensures |ds| == |Split(s)| - 1
    ensures forall k :: 0 <= k < |ds| ==> IsDelimiter(ds[k])
    decreases |s|
  {
    var k := FirstDelim(s, 0);
    if k == |s| then []
    else
      var n := DelimLen(s, k);
      assert IsDelimiter(s[k..k + n]) by {
        if n == 2 { assert s[k..k + n] == [s[k], s[k + 1]]; }
        else { assert s[k..k + n] == [s[k]]; }
      }
      [s[k..k + n]] + Delimiters(s[k + n..])
  }

  /** Nothing is lost by splitting: the pieces, rejoined with the
      delimiters that separated them, give back the text. */
  lemma {:induction false} SplitRejoins(s: string)
    ensures JoinWith(Split(s), Delimiters(s)) == s
    decreases |s|
  {
    var k := FirstDelim(s, 0);
    if k < |s| {
      var b := k + DelimLen(s, k);
      SplitRejoins(s[b..]);
      SplitStep(s);
      Reassembled(s, k, b);
    } else {
      assert s[..k] == s;
    }
  }

  lemma Reassembled(s: string, a: nat, b: nat)
    requires a <= b <= |s|
    ensures s[..a] + s[a..b] + s[b..] == s
  {
  }

  /** One step of `split`: the text before the first delimiter match, that
      match, and the split of what follows it. */
  lemma SplitStep(s: string)
    requires FirstDelim(s, 0) < |s|
    ensures var k := FirstDelim(s, 0);
            var rest := s[k + DelimLen(s, k)..];
            && Split(s) == [s[..k]] + Split(rest)
            && Delimiters(s) == [s[k..k + DelimLen(s, k)]] + Delimiters(rest)
            && JoinWith(Split(s), Delimiters(s)) == s[..k] + s[k..k + DelimLen(s, k)] + JoinWith(Split(rest), Delimiters(rest))
  {
  }

  /** The summary format the summarise prompt asks for: `• item` lines
      separated by line feeds. */
  function BulletList(items: seq<string>): string
    requires |items| >= 1
  {
    var line := [' '] + items[0];
    [BulletChar] + (if |items| == 1 then line else line + "\n" + BulletList(items[1..]))
  }

  /** `Survivors` takes the pieces one at a time. */
  lemma SurvivorsCons(p: string, tail: seq<string>)
    ensures Survivors([p] + tail) == (if Trim(p) == "" then [] else [Trim(p)]) + Survivors(tail)
  {
    assert ([p] + tail)[0] == p;
    assert ([p] + tail)[1..] == tail;
  }

  /** The trimmed items of a list, in order. */
  function TrimEach(items: seq<string>): (r: seq<string>)
    ensures |r| == |items|
    ensures forall k :: 0 <= k < |r| ==> r[k] == Trim(items[k])
  {
    if items == [] then [] else [Trim(items[0])] + TrimEach(items[1..])
  }

  /** A space in front keeps text plain. */
  lemma PaddedPlain(t: string)
    requires Plain(t)
    ensures Plain([' '] + t)
  {
    var padded := [' '] + t;
    forall i | 1 <= i < |padded| ensures padded[i] == t[i - 1] {
    }
  }

  /** A last `• item` line splits into an empty piece (before the bullet)
      and the item with its leading space. */
  lemma SplitLastBulletLine(t: string)
    requires Plain(t)
    ensures Split([BulletChar] + ([' '] + t)) == ["", [' '] + t]
  {
    PaddedPlain(t);
    SplitAfterDelimiter([BulletChar], [' '] + t);
    LoneCarriageReturnKeepsLine([' '] + t);
  }

  /** A `• item` line followed by a line feed splits the same way, and the
      text after the line feed splits on its own. */
  lemma SplitBulletLine(t: string, rest: string)
    requires Plain(t)
    ensures Split([BulletChar] + ([' '] + t + "\n" + rest)) == ["", [' '] + t] + Split(rest)
  {
    PaddedPlain(t);
    SplitAfterDelimiter([BulletChar], [' '] + t + "\n" + rest);
    SplitPlainThen([' '] + t, "\n", rest);
  }

  /** A `• item` list splits into an empty piece, the first item with its
      leading space, and the pieces of the lines after it. */
  lemma SplitOfBulletList(items: seq<string>)
    requires |items| >= 1 && Plain(items[0])
    ensures |items| == 1 ==> Split(BulletList(items)) == ["", [' '] + items[0]]
    ensures |items| > 1 ==> Split(BulletList(items)) == ["", [' '] + items[0]] + Split(BulletList(items[1..]))
  {
    if |items| == 1 {
      assert BulletList(items) == [BulletChar] + ([' '] + items[0]);
      SplitLastBulletLine(items[0]);
    } else {
      assert BulletList(items) == [BulletChar] + ([' '] + items[0] + "\n" + BulletList(items[1..]));
      SplitBulletLine(items[0], BulletList(items[1..]));
    }
  }

  /** The pieces of one `• item` line: the empty piece is dropped and the
      padded item is kept, trimmed. */
  lemma SurvivorsOfBulletLine(t: string, tail: seq<string>)
    requires Trim(t) != ""
    ensures Survivors(["", [' '] + t] + tail) == [Trim(t)] + Survivors(tail)
  {
    assert ["", [' '] + t] + tail == [""] + ([[' '] + t] + tail);
    TrimIgnoresLeadingSpace([' '], t);
    SurvivorsCons("", [[' '] + t] + tail);
    SurvivorsCons([' '] + t, tail);
  }

  /** Splitting a `• item` list and dropping blank pieces gives the trimmed items. */
  lemma {:induction false} SurvivorsOfBulletList(items: seq<string>)
    requires |items| >= 1
    requires forall k :: 0 <= k < |items| ==> Plain(items[k]) && Trim(items[k]) != ""
    ensures Survivors(Split(BulletList(items))) == TrimEach(items)
    decreases |items|
  {
    SplitOfBulletList(items);
    var tail := if |items| == 1 then [] else Split(BulletList(items[1..]));
    assert Split(BulletList(items)) == ["", [' '] + items[0]] + tail;
    SurvivorsOfBulletLine(items[0], tail);
    if |items| > 1 {
      SurvivorsOfBulletList(items[1..]);
    }
    assert TrimEach(items) == [Trim(items[0])] + TrimEach(items[1..]);
  }

  /** A summary in the requested `• item` format gives its items back, trimmed
      and with list markers stripped, the first five of them. */
  lemma BulletsOfBulletList(items: seq<string>)
    requires |items| >= 1
    requires forall k :: 0 <= k < |items| ==> Plain(items[k]) && Trim(items[k]) != ""
    ensures Bullets(Some(BulletList(items))) == Take(StripEach(TrimEach(items)), 5)
  {
    var s := BulletList(items);
    assert s[0] == BulletChar;
    BulletsOfText(s);
    SurvivorsOfBulletList(items);
  }

  /** An item the bullet view shows unchanged: non-empty, unpadded, without
      delimiters, not starting with a list-marker character. */
  predicate CleanItem(t: string) {
    t != "" && NoDelimIn(t) && Unpadded(t) && !IsMarker(t[0])
  }

  /** A clean item is plain, and neither trimming nor marker stripping changes it. */
  lemma CleanItemIsStable(t: string)
    requires CleanItem(t)
    ensures Plain(t) && Trim(t) == t && StripMarkers(t) == t
  {
    TrimOfPadded([], t, []);
    assert [] + t + [] == t;
  }

  /** The requested summary format: five `• item` lines of clean items give exactly
      those five items. */
  lemma FiveBulletsRoundTrip(items: seq<string>)
    requires |items| == 5
    requires forall k :: 0 <= k < 5 ==> CleanItem(items[k])
    ensures Bullets(Some(BulletList(items))) == items
  {
    forall k | 0 <= k < 5 ensures Plain(items[k]) && Trim(items[k]) == items[k] && StripMarkers(items[k]) == items[k] {
      CleanItemIsStable(items[k]);
    }
    BulletsOfBulletList(items);
  }

  /** A lone carriage return does not split. */
  /** Two plain words joined by a hyphen split into the two words. */
  lemma SplitHyphenated(a: string, b: string)
    requires Plain(a) && Plain(b)
    ensures Split(a + "-" + b) == [a, b]
  {
    SplitPlainThen(a, "-", b);
    assert Split(b) == [b] by {
      LoneCarriageReturnKeepsLine(b);
    }
  }

  /** Two clean items survive trimming and the empty-filter unchanged. */
  lemma SurvivorsOfTwo(a: string, b: string)
    requires CleanItem(a) && CleanItem(b)
    ensures Survivors([a, b]) == [a, b]
  {
    CleanItemIsStable(a);
    CleanItemIsStable(b);
    SurvivorsCons(a, [b]);
    SurvivorsCons(b, []);
  }

  /** A hyphen between two words splits them into two bullets. */
  lemma HyphenSplitsWords(a: string, b: string)
    requires CleanItem(a) && CleanItem(b)
    ensures Bullets(Some(a + "-" + b)) == [a, b]
  {
    var s := a + "-" + b;
    assert Split(s) == [a, b] by {
      CleanItemIsStable(a);
      CleanItemIsStable(b);
      SplitHyphenated(a, b);
    }
    assert Survivors([a, b]) == [a, b] by {
      SurvivorsOfTwo(a, b);
    }
    assert StripEach([a, b]) == [a, b] by {
      CleanItemIsStable(a);
      CleanItemIsStable(b);
      var stripped := StripEach([a, b]);
      assert stripped[0] == a && stripped[1] == b;
    }
    assert Bullets(Some(s)) == Take(StripEach(Survivors(Split(s))), 5) by {
      assert s[|a|] == '-';
      BulletsOfText(s);
    }
  }

  /** A character of a list number such as `3.` or `12)`. */
  predicate IsNumbering(c: char) {
    ('0' <= c <= '9') || c == '.' || c == ')'
  }

  /** A line of digits, dots and closing parentheses only, such as `3.`,
      survives the empty-filter and is shown as an empty bullet. */
  lemma MarkerOnlyPieceIsEmptyBullet(m: string)
    requires m != []
    requires forall i :: 0 <= i < |m| ==> IsNumbering(m[i])
    ensures Bullets(Some(m)) == [""]
  {
    MarkerOnlySurvives(m);
    MarkerOnlyStripsToEmpty(m);
    BulletsOfText(m);
  }

  /** Such a line is one piece, and trimming leaves it as it is. */
  lemma MarkerOnlySurvives(m: string)
    requires m != []
    requires forall i :: 0 <= i < |m| ==> IsNumbering(m[i])
    ensures Survivors(Split(m)) == [m]
  {
    assert NoDelimIn(m);
    assert Trim(m) == m by {
      assert IsNumbering(m[0]) && IsNumbering(m[|m| - 1]);
      TrimOfPadded([], m, []);
      assert [] + m + [] == m;
    }
    SinglePieceSurvives(m);
  }

  /** Non-empty text without delimiters that trimming leaves alone is its
      own only survivor. */
  lemma SinglePieceSurvives(p: string)
    requires p != "" && NoDelimIn(p) && Trim(p) == p
    ensures Survivors(Split(p)) == [p]
  {
    LoneCarriageReturnKeepsLine(p);
    SurvivorsCons(p, []);
  }

  /** Marker stripping removes all of such a line. */
  lemma MarkerOnlyStripsToEmpty(m: string)
    requires forall i :: 0 <= i < |m| ==> IsNumbering(m[i])
    ensures StripEach([m]) == [""]
  {
  }

  // ----- investorAngle: the first sentence of the brief (or summary) -----

  predicate IsTerminator(c: char) {
    c == '.' || c == '!' || c == '?'
  }

  /** `src[q..e]` is a match of `/[^.!?]+[.!?]/`: a run of one or more
      non-terminators followed by one terminator. */
  ghost predicate SentenceAt(s: string, q: int, e: int) {
    && 0 <= q < e - 1 && e <= |s|
    && (forall k :: q <= k < e - 1 ==> !IsTerminator(s[k]))
    && IsTerminator(s[e - 1])
  }

  /** A match starting at a given index has only one possible end. */
  lemma SentenceEndUnique(s: string, q: int, e1: int, e2: int)
    requires SentenceAt(s, q, e1) && SentenceAt(s, q, e2)
    ensures e1 == e2
  {
  }

  /** The first index at or after `i` whose character is (`terminator`) or
      is not (`!terminator`) a sentence terminator, or `|s|`. */
  function FirstWhere(s: string, i: nat, terminator: bool): (k: nat)
    requires i <= |s|
    ensures i <= k <= |s|
    ensures forall j :: i <= j < k ==> IsTerminator(s[j]) != terminator
    ensures k < |s| ==> IsTerminator(s[k]) == terminator
    decreases |s| - i
  {
    if i == |s| || IsTerminator(s[i]) == terminator then i else FirstWhere(s, i + 1, terminator)
  }

  datatype Span = Span(start: nat, end: nat)

  /** `src.match(/[^.!?]+[.!?]/)`: the leftmost match, if there is one. */
  function FirstSentence(s: string): (m: Option<Span>)
    ensures m.Some? ==> SentenceAt(s, m.value.start, m.value.end)
    ensures m.Some? ==> forall q, e :: q < m.value.start ==> !SentenceAt(s, q, e)
    ensures m.None? ==> forall q, e :: !SentenceAt(s, q, e)
  {
    var q := FirstWhere(s, 0, false);
    if q == |s| then
      assert forall q', e :: !SentenceAt(s, q', e) by {
        forall q', e ensures !SentenceAt(s, q', e) {
          assert 0 <= q' < |s| ==> IsTerminator(s[q']);
        }
      }
      None
    else
      var e := FirstWhere(s, q, true);
      assert forall q', e' :: q' < q ==> !SentenceAt(s, q', e') by {
        forall q', e' | q' < q ensures !SentenceAt(s, q', e') {
          assert 0 <= q' ==> IsTerminator(s[q']);
        }
      }
      if e == |s| then
        assert forall q', e' :: !SentenceAt(s, q', e') by {
          forall q', e' ensures !SentenceAt(s, q', e') {
            assert q <= q' < e' - 1 && e' <= |s| ==> !IsTerminator(s[e' - 1]);
          }
        }
        None
      else
        Some(Span(q, e + 1))
  }

  /** `result?.brief || result?.summary || ''`: the brief when it is a
      non-empty string, otherwise the summary, otherwise empty. */
  function AngleSource(brief: Option<string>, summary: Option<string>): string {
    if brief.Some? && brief.value != "" then brief.value
    else if summary.Some? then summary.value
    else ""
  }

  /** `investorAngle`. It is empty exactly when its source trims to empty;
      otherwise it is a non-empty, unpadded slice of the trimmed source. */
  function InvestorAngle(brief: Option<string>, summary: Option<string>): (angle: string)
    ensures Unpadded(angle)
    ensures angle == "" <==> Trim(AngleSource(brief, summary)) == ""
    ensures |angle| <= |Trim(AngleSource(brief, summary))|
  {
    var src := Trim(AngleSource(brief, summary));
    if src == "" then ""
    else
      match FirstSentence(src)
      case Some(m) =>
        var sentence := src[m.start..m.end];
        assert sentence[|sentence| - 1] == src[m.end - 1];
        assert !AllSpace(sentence);
        Trim(sentence)
      case None =>
        var head := src[..Min(220, |src|)];
        assert head[0] == src[0];
        assert !AllSpace(head);
        Trim(head)
  }

  /** Trimming text that ends in a non-space keeps that last character: the
      result is a non-empty suffix. */
  lemma TrimKeepsLast(x: string)
    requires x != [] && !IsSpace(x[|x| - 1])
    ensures Trim(x) != [] && TrimOffset(x) + |Trim(x)| == |x|
  {
    var r := Trim(x);
  }

  /** A sentence match, trimmed, is non-empty, ends with its terminator and
      holds no other terminator. */
  lemma TrimmedSentence(s: string, q: int, e: int)
    requires SentenceAt(s, q, e)
    ensures var angle := Trim(s[q..e]);
            && angle != ""
            && IsTerminator(angle[|angle| - 1])
            && forall k :: 0 <= k < |angle| - 1 ==> !IsTerminator(angle[k])
  {
    var sentence := s[q..e];
    TrimKeepsLast(sentence);
    TrimShape(sentence);
    var angle := Trim(sentence);
    var off := TrimOffset(sentence);
    forall k | 0 <= k < |angle| - 1 ensures !IsTerminator(angle[k]) {
      assert angle[k] == sentence[off + k] == s[q + off + k];
    }
    assert angle[|angle| - 1] == s[e - 1];
  }

  /** With a leftmost sentence in the trimmed source, the angle is that
      sentence, trimmed: it ends with its terminator and holds no other. */
  lemma AngleIsLeftmostSentence(brief: Option<string>, summary: Option<string>, q: int, e: int)
    requires SentenceAt(Trim(AngleSource(brief, summary)), q, e)
    requires forall q', e' :: q' < q ==> !SentenceAt(Trim(AngleSource(brief, summary)), q', e')
    ensures var src := Trim(AngleSource(brief, summary));
            InvestorAngle(brief, summary) == Trim(src[q..e])
    ensures var angle := InvestorAngle(brief, summary);
            && angle != ""
            && IsTerminator(angle[|angle| - 1])
            && forall k :: 0 <= k < |angle| - 1 ==> !IsTerminator(angle[k])
  {
    var src := Trim(AngleSource(brief, summary));
    assert InvestorAngle(brief, summary) == Trim(src[q..e]) by {
      var m := FirstSentence(src);
      assert m.Some?;
      assert m.value.start == q;
      SentenceEndUnique(src, q, e, m.value.end);
    }
    TrimmedSentence(src, q, e);
  }

  /** Without any sentence in the trimmed source, the angle is its first 220
      characters, trimmed. */
  lemma AngleWithoutSentence(brief: Option<string>, summary: Option<string>)
    requires Trim(AngleSource(brief, summary)) != ""
    requires forall q, e :: !SentenceAt(Trim(AngleSource(brief, summary)), q, e)
    ensures var src := Trim(AngleSource(brief, summary));
            InvestorAngle(brief, summary) == Trim(src[..Min(220, |src|)])
    ensures 0 < |InvestorAngle(brief, summary)| <= 220
  {
  }

  /** A non-empty brief decides the angle alone, even one of white space only,
      which gives an empty angle whatever the summary says. */
  lemma BriefShadowsSummary(b: string, s1: Option<string>, s2: Option<string>)
    requires b != ""
    ensures InvestorAngle(Some(b), s1) == InvestorAngle(Some(b), s2)
    ensures Trim(b) == "" ==> InvestorAngle(Some(b), s1) == ""
  {
  }

  // ----- handleGenerate -----

  /** The JSON body the page posts; `vcPersona: undefined` is dropped by
      `JSON.stringify`, which `None` stands for. */
  datatype Payload = Payload(deckText: string, vcPersona: Option<string>)

  /** What `fetch` and `response.json()` do: one of them throws, or the parsed
      envelope arrives (whatever its status). */
  datatype FetchOutcome = NetworkFailure | Delivered(data: Envelope)

  /** The observable steps of one submit, in order. */
  datatype Effect = SetLoading(on: bool) | SetResult(result: Option<Envelope>) | Fetch(payload: Payload)

  const BlankDeckMessage: string := "Please paste your pitch deck text."
  const NetworkErrorMessage: string := "Network error. Please try again."

  /** The body a submit posts for the given inputs, or `None` when the deck
      text is blank and nothing is posted. */
  function PayloadFor(deckText: string, vcPersona: string): (p: Option<Payload>)
    ensures p.None? <==> Trim(deckText) == ""
    ensures p.Some? ==> p.value.deckText == Trim(deckText)
    ensures p.Some? ==> (p.value.vcPersona.None? <==> Trim(vcPersona) == "")
    ensures p.Some? && p.value.vcPersona.Some? ==> p.value.vcPersona.value == Trim(vcPersona)
  {
    if Trim(deckText) == "" then None
    else Some(Payload(Trim(deckText), if Trim(vcPersona) == "" then None else Some(Trim(vcPersona))))
  }

  /** The body as the handler reads it after the JSON round trip. */
  function Received(p: Payload): RequestBody {
    Fields(Str(p.deckText), if p.vcPersona.Some? then Str(p.vcPersona.value) else Absent)
  }

  /** Whatever the page posts passes the handler's validation; the handler
      summarises the trimmed deck text and writes for the trimmed persona, or
      the default one when the page left the persona out. */
  lemma PostedPayloadIsValid(deckText: string, vcPersona: string, cfg: Llm.Config,
                             summaryReplies: Llm.Replies, briefReplies: Llm.Replies)
    requires Trim(deckText) != ""
    ensures var body := Received(PayloadFor(deckText, vcPersona).value);
            && body.Fields? && ValidDeckText(body.deckText)
            && Post(body, cfg, summaryReplies, briefReplies).response.status != 400
            && Post(body, cfg, summaryReplies, briefReplies).prompts[0] == SummarizePrompt(Trim(deckText))
            && ResolvePersona(body.vcPersona) == (if Trim(vcPersona) == "" then DefaultPersona else Trim(vcPersona))
  {
    TrimIdempotent(deckText);
    TrimIdempotent(vcPersona);
    var body := Received(PayloadFor(deckText, vcPersona).value);
    PostCallOrder(body, cfg, summaryReplies, briefReplies);
  }

  /** Appending five elements one by one appends the five of them. */
  lemma AppendFive<T>(xs: seq<T>, a: T, b: T, c: T, d: T, e: T)
    ensures xs + [a] + [b] + [c] + [d] + [e] == xs + [a, b, c, d, e]
  {
  }

  /** The `Home` component's state. */
  class Home {
    var deckText: string
    var vcPersona: string
    var isLoading: bool
    var result: Option<Envelope>
    /** Every state update and request, in the order the component made them. */
    ghost var effects: seq<Effect>

    constructor ()
      ensures deckText == "" && vcPersona == "" && !isLoading && result == None && effects == []
    {
      deckText, vcPersona, isLoading, result := "", "", false, None;
      effects := [];
    }

    /** The deck text area's `onChange`. */
    method SetDeckText(text: string)
      modifies this
      ensures deckText == text
      ensures vcPersona == old(vcPersona) && isLoading == old(isLoading) && result == old(result)
      ensures effects == old(effects)
    {
      deckText := text;
    }

    /** The persona input's `onChange`. */
    method SetVcPersona(text: string)
      modifies this
      ensures vcPersona == text
      ensures deckText == old(deckText) && isLoading == old(isLoading) && result == old(result)
      ensures effects == old(effects)
    {
      vcPersona := text;
    }

    /** `handleGenerate`, with the outcome of the request as an input. A blank
        deck text only sets the error result: no request, no loading flag.
        Otherwise it raises the loading flag, clears the result, posts the
        trimmed inputs, stores the received envelope or the network error,
        and finally lowers the loading flag. It returns what it posted. */
    method HandleGenerate(outcome: FetchOutcome) returns (sent: Option<Payload>)
      modifies this
      ensures deckText == old(deckText) && vcPersona == old(vcPersona)
      ensures sent == PayloadFor(deckText, vcPersona)
      ensures sent.None? ==>
                && isLoading == old(isLoading)
                && result == Some(Failure(BlankDeckMessage))
                && effects == old(effects) + [SetResult(result)]
      ensures sent.Some? ==>
                && !isLoading
                && result == Some(if outcome.NetworkFailure? then Failure(NetworkErrorMessage) else outcome.data)
                && effects == old(effects) + [SetLoading(true), SetResult(None), Fetch(sent.value),
                                              SetResult(result), SetLoading(false)]
    {
      if Trim(deckText) == "" {
        result := Some(Failure(BlankDeckMessage));
        effects := effects + [SetResult(result)];
        sent := None;
        return;
      }

      ghost var before := effects;
      isLoading := true;
      effects := effects + [SetLoading(true)];
      result := None;
      effects := effects + [SetResult(None)];

      sent := PayloadFor(deckText, vcPersona);
      var payload := sent.value;
      effects := effects + [Fetch(payload)];

      result := Some(if outcome.Delivered? then outcome.data else Failure(NetworkErrorMessage));
      effects := effects + [SetResult(result)];

      isLoading := false;
      effects := effects + [SetLoading(false)];
      AppendFive(before, SetLoading(true), SetResult(None), Fetch(payload), SetResult(result), SetLoading(false));
    }
  }
}
