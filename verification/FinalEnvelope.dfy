/** The two-channel final output: printing, strict parsing, and when one undoes the other. */
module FinalEnvelope {
  import opened Text

  /** The four channel markers; the laws hold of any that are free of whitespace. */
  datatype Markers = Markers(selfOpen: string, selfClose: string, userOpen: string, userClose: string)

  const MARKERS := Markers("[TO_SELF]", "[/TO_SELF]", "[TO_USER]", "[/TO_USER]")

  datatype Error = MustStartWithSelf | MissingSelfClose | UserMustFollow | MissingUserClose | TrailingContent

  datatype Parsed = Ok(toSelf: string, toUser: string) | Err(error: Error)

  /** The first visible position at or after `i`. */
  function First(s: string, i: nat): (r: nat)
    requires i <= |s|
    ensures i <= r <= |s|
    decreases |s| - i
  {
    if i < |s| && PythonSpace(s[i]) then First(s, i + 1) else i
  }

  /** The end of the last visible character before `n`, or `lo`. */
  function Last(s: string, lo: nat, n: nat): (r: nat)
    requires lo <= n <= |s|
    ensures lo <= r <= n
    decreases n
  {
    if lo < n && PythonSpace(s[n - 1]) then Last(s, lo, n - 1) else n
  }

  function Strip(s: string): string {
    var lo := First(s, 0);
    s[lo..Last(s, lo, |s|)]
  }

  predicate At(text: string, pattern: string, i: nat) {
    i + |pattern| <= |text| && forall k | 0 <= k < |pattern| :: text[i + k] == pattern[k]
  }

  ghost predicate Contains(text: string, pattern: string) {
    exists i: nat :: At(text, pattern, i)
  }

  /** The first occurrence at or after `from`, or -1. */
  function Find(text: string, pattern: string, from: nat): (r: int)
    ensures r == -1 || from <= r <= |text| - |pattern|
    decreases |text| - from
  {
    if At(text, pattern, from) then from
    else if from >= |text| then -1
    else Find(text, pattern, from + 1)
  }

  function Format(m: Markers, toSelf: string, toUser: string): string {
    m.selfOpen + "\n" + Strip(toSelf) + "\n" + m.selfClose + "\n" + m.userOpen + "\n" + Strip(toUser) + "\n" + m.userClose
  }

  /** The user channel, from where its marker must be. */
  function ParseUser(m: Markers, text: string, toSelf: string, userStart: nat): Parsed {
    if !At(text, m.userOpen, userStart) then Err(UserMustFollow)
    else
      var contentStart := userStart + |m.userOpen|;
      var userEnd := Find(text, m.userClose, contentStart);
      if userEnd < 0 then Err(MissingUserClose)
      else if Strip(text[userEnd + |m.userClose|..]) != "" then Err(TrailingContent)
      else Ok(toSelf, Strip(text[contentStart..userEnd]))
  }

  function ParseText(m: Markers, text: string): Parsed {
    if !At(text, m.selfOpen, 0) then Err(MustStartWithSelf)
    else
      var selfEnd := Find(text, m.selfClose, |m.selfOpen|);
      if selfEnd < 0 then Err(MissingSelfClose)
      else ParseUser(m, text, Strip(text[|m.selfOpen|..selfEnd]), First(text, selfEnd + |m.selfClose|))
  }

  function Parse(m: Markers, content: string): Parsed { ParseText(m, Strip(content)) }

  // ---- finding and stripping ----

  lemma {:induction false} FindsFirst(text: string, pattern: string, from: nat)
    ensures var r := Find(text, pattern, from);
            (r != -1 ==> At(text, pattern, r)) && forall i: nat | from <= i && (r == -1 || i < r) :: !At(text, pattern, i)
    decreases |text| - from
  {
    if !At(text, pattern, from) && from < |text| {
      FindsFirst(text, pattern, from + 1);
    } else if !At(text, pattern, from) {
      assert forall i: nat | from <= i :: At(text, pattern, i) ==> |pattern| == 0 && i == from;
    }
  }

  lemma {:induction false} FirstVisible(s: string, i: nat)
    requires i <= |s|
    ensures var r := First(s, i); (forall k | i <= k < r :: PythonSpace(s[k])) && (r < |s| ==> !PythonSpace(s[r]))
    decreases |s| - i
  {
    if i < |s| && PythonSpace(s[i]) {
      FirstVisible(s, i + 1);
    }
  }

  lemma {:induction false} LastVisible(s: string, lo: nat, n: nat)
    requires lo <= n <= |s|
    ensures var r := Last(s, lo, n); (forall k | r <= k < n :: PythonSpace(s[k])) && (lo < r ==> !PythonSpace(s[r - 1]))
    decreases n
  {
    if lo < n && PythonSpace(s[n - 1]) {
      LastVisible(s, lo, n - 1);
    }
  }

  /** No whitespace at either end. */
  predicate Tight(s: string) {
    s != "" ==> !PythonSpace(s[0]) && !PythonSpace(s[|s| - 1])
  }

  lemma StripParts(s: string) returns (lo: nat, hi: nat)
    ensures lo <= hi <= |s| && Strip(s) == s[lo..hi] && Tight(s[lo..hi])
    ensures forall k | 0 <= k < lo :: PythonSpace(s[k])
    ensures forall k | hi <= k < |s| :: PythonSpace(s[k])
  {
    lo := First(s, 0);
    hi := Last(s, lo, |s|);
    FirstVisible(s, 0);
    LastVisible(s, lo, |s|);
  }

  /** Stripping is determined by its visible ends. */
  lemma StripIs(s: string, lo: nat, hi: nat)
    requires lo < hi <= |s| && !PythonSpace(s[lo]) && !PythonSpace(s[hi - 1])
    requires forall k | 0 <= k < lo :: PythonSpace(s[k])
    requires forall k | hi <= k < |s| :: PythonSpace(s[k])
    ensures Strip(s) == s[lo..hi]
  {
    var first := First(s, 0);
    FirstVisible(s, 0);
    assert first == lo;
    LastVisible(s, lo, |s|);
  }

  lemma StripBlank(s: string)
    requires forall k | 0 <= k < |s| :: PythonSpace(s[k])
    ensures Strip(s) == ""
  {
    FirstVisible(s, 0);
  }

  lemma StripTight(s: string)
    requires Tight(s)
    ensures Strip(s) == s
  {
    if s == "" {
      StripBlank(s);
    } else {
      StripIs(s, 0, |s|);
    }
  }

  lemma StripTwice(s: string)
    ensures Strip(Strip(s)) == Strip(s) && Tight(Strip(s)) && |Strip(s)| <= |s|
  {
    var lo, hi := StripParts(s);
    StripTight(Strip(s));
  }

  /** A newline on each side is stripped with the rest. */
  lemma StripPadded(s: string)
    requires Tight(s)
    ensures Strip("\n" + s + "\n") == s
  {
    var padded := "\n" + s + "\n";
    if s == "" {
      StripBlank(padded);
    } else {
      StripIs(padded, 1, 1 + |s|);
      assert padded[1..1 + |s|] == s;
    }
  }

  predicate Solid(pattern: string) {
    pattern != "" && forall k | 0 <= k < |pattern| :: !PythonSpace(pattern[k])
  }

  predicate Proper(m: Markers) {
    Solid(m.selfOpen) && Solid(m.selfClose) && Solid(m.userOpen) && Solid(m.userClose)
  }

  lemma MarkersProper()
    ensures Proper(MARKERS)
  {
  }

  /** An occurrence in a slice is one in the whole, shifted. */
  lemma Shifted(s: string, lo: nat, hi: nat, pattern: string, i: nat)
    requires lo <= hi <= |s| && lo <= i && i + |pattern| <= hi
    ensures At(s, pattern, i) <==> At(s[lo..hi], pattern, i - lo)
  {
  }

  /** Markers contain no whitespace, so stripping neither makes nor breaks an occurrence. */
  lemma StripContains(s: string, pattern: string)
    requires Solid(pattern)
    ensures Contains(Strip(s), pattern) <==> Contains(s, pattern)
  {
    var lo, hi := StripParts(s);
    if i: nat :| At(s, pattern, i) {
      assert s[i] == pattern[0] && s[i + (|pattern| - 1)] == pattern[|pattern| - 1];
      Shifted(s, lo, hi, pattern, i);
    }
    if i: nat :| At(s[lo..hi], pattern, i) {
      Shifted(s, lo, hi, pattern, lo + i);
    }
  }

  // ---- a body between newlines, then the marker that closes it ----

  function Block(head: string, body: string, marker: string, tail: string): string {
    head + "\n" + body + "\n" + marker + tail
  }

  /** `body` between newlines at `lo`, followed by `marker`. */
  predicate Framed(text: string, lo: nat, body: string, marker: string) {
    var end := lo + |body| + 2;
    && end + |marker| <= |text| && text[lo] == '\n' && text[end - 1] == '\n'
    && text[lo + 1..end - 1] == body && At(text, marker, end)
  }

  lemma BlockParts(head: string, body: string, marker: string, tail: string)
    ensures var text := Block(head, body, marker, tail); var end := |head| + |body| + 2;
            Framed(text, |head|, body, marker) && text[end + |marker|..] == tail && |text| == end + |marker| + |tail|
  {
  }

  lemma FramedBody(text: string, lo: nat, body: string, marker: string)
    requires Framed(text, lo, body, marker) && Tight(body)
    ensures Strip(text[lo..lo + |body| + 2]) == body
  {
    assert text[lo..lo + |body| + 2] == "\n" + body + "\n";
    StripPadded(body);
  }

  /** The marker is found exactly after a body that lacks it. */
  lemma FindsAfter(text: string, lo: nat, body: string, marker: string)
    requires Framed(text, lo, body, marker) && Solid(marker) && !Contains(body, marker)
    ensures Find(text, marker, lo) == lo + |body| + 2
  {
    var end := lo + |body| + 2;
    FindsFirst(text, marker, lo);
    forall i: nat | lo <= i < end ensures !At(text, marker, i) {
      if i == lo {
        assert text[i + 0] != marker[0];
      } else if end - 1 < i + |marker| {
        assert text[i + (end - 1 - i)] != marker[end - 1 - i];
      } else {
        Shifted(text, lo + 1, end - 1, marker, i);
      }
    }
  }

  /** A body that contains the marker hides the framing one: the marker is found inside the body. */
  lemma FindsInside(text: string, lo: nat, body: string, marker: string)
    requires Framed(text, lo, body, marker) && Solid(marker) && Contains(body, marker)
    ensures lo <= Find(text, marker, lo) <= lo + 1 + |body| - |marker|
  {
    var i: nat :| At(body, marker, i);
    Shifted(text, lo + 1, lo + 1 + |body|, marker, lo + 1 + i);
    FindsFirst(text, marker, lo);
  }

  // ---- parsing what was printed ----

  function UserPart(m: Markers, u: string): string { Block(m.userOpen, u, m.userClose, "") }

  function Printed(m: Markers, s: string, u: string): string {
    Block(m.selfOpen, s, m.selfClose, "\n" + UserPart(m, u))
  }

  /** The second channel's block starts here. */
  function UserAt(m: Markers, s: string): nat { |m.selfOpen| + |s| + 2 + |m.selfClose| + 1 }

  lemma Regroup(a: string, n: string, s: string, b: string, c: string, u: string, d: string)
    ensures a + n + s + n + b + n + c + n + u + n + d == a + n + s + n + b + (n + (c + n + u + n + d + ""))
  {
  }

  lemma FormatIs(m: Markers, toSelf: string, toUser: string)
    ensures Format(m, toSelf, toUser) == Printed(m, Strip(toSelf), Strip(toUser))
  {
    Regroup(m.selfOpen, "\n", Strip(toSelf), m.selfClose, m.userOpen, Strip(toUser), m.userClose);
  }

  lemma BlockEnds(head: string, body: string, marker: string, tail: string)
    requires head != "" && marker != ""
    ensures var text := Block(head, body, marker, tail); At(text, head, 0) && text[0] == head[0]
    ensures var text := Block(head, body, marker, tail);
            text[|text| - 1] == if tail == "" then marker[|marker| - 1] else tail[|tail| - 1]
  {
  }

  lemma PrintedEnds(m: Markers, s: string, u: string)
    requires Proper(m)
    ensures var text := Printed(m, s, u);
            && Strip(text) == text && At(text, m.selfOpen, 0)
            && text != "" && !PythonSpace(text[|text| - 1])
  {
    var text := Printed(m, s, u);
    BlockEnds(m.userOpen, u, m.userClose, "");
    BlockEnds(m.selfOpen, s, m.selfClose, "\n" + UserPart(m, u));
    StripTight(text);
  }

  lemma Behind(a: string, n: string, b: string)
    ensures (a + (n + b))[|a| + |n|..] == b && (a + (n + b))[|a|..] == n + b
  {
  }

  /** Seen from its second channel, the printed text is what comes before it and a block. */
  lemma UserSeen(m: Markers, s: string, u: string)
    requires Proper(m)
    ensures var text := Printed(m, s, u); var at := UserAt(m, s);
            && text[at..] == UserPart(m, u) && at < |text| && text[at - 1] == '\n' && text[at] == m.userOpen[0]
  {
    var head := m.selfOpen + "\n" + s + "\n" + m.selfClose;
    BlockEnds(m.userOpen, u, m.userClose, "");
    Behind(head, "\n", UserPart(m, u));
    assert Printed(m, s, u) == head + ("\n" + UserPart(m, u));
  }

  lemma AtInTail(text: string, at: nat, pattern: string, i: nat)
    requires at <= |text| && at <= i
    ensures At(text, pattern, i) <==> At(text[at..], pattern, i - at)
  {
  }

  lemma StripEndsVisibly(text: string, from: nat)
    requires from < |text| && !PythonSpace(text[|text| - 1])
    ensures Strip(text[from..]) != ""
  {
    var lo, hi := StripParts(text[from..]);
    assert text[from..][|text| - from - 1] == text[|text| - 1];
  }

  /** What `ParseUser` computes once the end of the channel is known. */
  lemma ParseUserIs(m: Markers, text: string, toSelf: string, userStart: nat, userEnd: nat)
    requires At(text, m.userOpen, userStart) && Find(text, m.userClose, userStart + |m.userOpen|) == userEnd
    ensures ParseUser(m, text, toSelf, userStart)
            == if Strip(text[userEnd + |m.userClose|..]) != "" then Err(TrailingContent)
               else Ok(toSelf, Strip(text[userStart + |m.userOpen|..userEnd]))
  {
  }

  lemma FramedInTail(text: string, at: nat, lo: nat, body: string, marker: string)
    requires at <= |text| && Framed(text[at..], lo, body, marker)
    ensures Framed(text, at + lo, body, marker)
  {
    var end := lo + |body| + 2;
    assert text[at + lo + 1..at + end - 1] == text[at..][lo + 1..end - 1];
    AtInTail(text, at, marker, at + end);
  }

  lemma UserPlaced(m: Markers, text: string, at: nat, u: string)
    requires Proper(m) && at < |text| && text[at..] == UserPart(m, u)
    ensures Framed(text, at + |m.userOpen|, u, m.userClose) && At(text, m.userOpen, at)
    ensures |text| == at + |m.userOpen| + |u| + 2 + |m.userClose|
  {
    BlockEnds(m.userOpen, u, m.userClose, "");
    BlockParts(m.userOpen, u, m.userClose, "");
    AtInTail(text, at, m.userOpen, at);
    FramedInTail(text, at, |m.userOpen|, u, m.userClose);
  }

  lemma UserHidden(m: Markers, text: string, at: nat, u: string, toSelf: string)
    requires Proper(m) && At(text, m.userOpen, at) && Framed(text, at + |m.userOpen|, u, m.userClose)
    requires |text| == at + |m.userOpen| + |u| + 2 + |m.userClose| && !PythonSpace(text[|text| - 1])
    requires Contains(u, m.userClose)
    ensures ParseUser(m, text, toSelf, at) == Err(TrailingContent)
  {
    var from := at + |m.userOpen|;
    var end := Find(text, m.userClose, from);
    FindsInside(text, from, u, m.userClose);
    StripEndsVisibly(text, end + |m.userClose|);
    ParseUserIs(m, text, toSelf, at, end);
  }

  lemma UserShown(m: Markers, text: string, at: nat, u: string, toSelf: string)
    requires Proper(m) && At(text, m.userOpen, at) && Framed(text, at + |m.userOpen|, u, m.userClose)
    requires |text| == at + |m.userOpen| + |u| + 2 + |m.userClose|
    requires Tight(u) && !Contains(u, m.userClose)
    ensures ParseUser(m, text, toSelf, at) == Ok(toSelf, u)
  {
    var from := at + |m.userOpen|;
    var end := from + |u| + 2;
    FindsAfter(text, from, u, m.userClose);
    FramedBody(text, from, u, m.userClose);
    StripBlank(text[end + |m.userClose|..]);
    ParseUserIs(m, text, toSelf, at, end);
  }

  lemma ParseTextIs(m: Markers, text: string, selfEnd: nat, toSelf: string, next: nat)
    requires At(text, m.selfOpen, 0) && Find(text, m.selfClose, |m.selfOpen|) == selfEnd
    requires toSelf == Strip(text[|m.selfOpen|..selfEnd]) && next == First(text, selfEnd + |m.selfClose|)
    ensures ParseText(m, text) == ParseUser(m, text, toSelf, next)
  {
  }

  lemma FirstIsNext(text: string, at: nat)
    requires 0 < at < |text| && PythonSpace(text[at - 1]) && !PythonSpace(text[at])
    ensures First(text, at - 1) == at
  {
    assert First(text, at) == at;
  }

  lemma SelfShown(m: Markers, text: string, s: string)
    requires Proper(m) && At(text, m.selfOpen, 0) && Framed(text, |m.selfOpen|, s, m.selfClose)
    requires UserAt(m, s) < |text| && text[UserAt(m, s) - 1] == '\n' && !PythonSpace(text[UserAt(m, s)])
    requires Tight(s) && !Contains(s, m.selfClose)
    ensures ParseText(m, text) == ParseUser(m, text, s, UserAt(m, s))
  {
    FindsAfter(text, |m.selfOpen|, s, m.selfClose);
    FramedBody(text, |m.selfOpen|, s, m.selfClose);
    FirstIsNext(text, UserAt(m, s));
    ParseTextIs(m, text, |m.selfOpen| + |s| + 2, s, UserAt(m, s));
  }

  lemma SelfPlaced(m: Markers, s: string, u: string)
    ensures Framed(Printed(m, s, u), |m.selfOpen|, s, m.selfClose)
  {
    BlockParts(m.selfOpen, s, m.selfClose, "\n" + UserPart(m, u));
  }

  lemma ParseUserKeeps(m: Markers, text: string, toSelf: string, userStart: nat)
    ensures var parsed := ParseUser(m, text, toSelf, userStart); parsed.Ok? ==> parsed.toSelf == toSelf
  {
  }

  /** A first channel that contains its own closing marker comes back shorter, if at all. */
  lemma SelfHidden(m: Markers, s: string, u: string)
    requires Proper(m) && Contains(s, m.selfClose)
    ensures var parsed := ParseText(m, Printed(m, s, u)); parsed.Ok? ==> |parsed.toSelf| < |s|
  {
    var text := Printed(m, s, u);
    PrintedEnds(m, s, u);
    SelfPlaced(m, s, u);
    FindsInside(text, |m.selfOpen|, s, m.selfClose);
    var end := Find(text, m.selfClose, |m.selfOpen|);
    var toSelf := Strip(text[|m.selfOpen|..end]);
    var next := First(text, end + |m.selfClose|);
    ParseTextIs(m, text, end, toSelf, next);
    StripTwice(text[|m.selfOpen|..end]);
    ParseUserKeeps(m, text, toSelf, next);
  }

  /** The two channels where parsing will look for them. */
  predicate Laid(m: Markers, text: string, s: string, u: string) {
    var at := UserAt(m, s);
    && At(text, m.selfOpen, 0) && Framed(text, |m.selfOpen|, s, m.selfClose)
    && at < |text| && text[at - 1] == '\n' && !PythonSpace(text[at])
    && At(text, m.userOpen, at) && Framed(text, at + |m.userOpen|, u, m.userClose)
    && |text| == at + |m.userOpen| + |u| + 2 + |m.userClose| && !PythonSpace(text[|text| - 1])
  }

  lemma PrintedLaid(m: Markers, s: string, u: string, text: string)
    requires Proper(m) && text == Printed(m, s, u)
    ensures Laid(m, text, s, u)
  {
    PrintedEnds(m, s, u);
    SelfPlaced(m, s, u);
    UserSeen(m, s, u);
    UserPlaced(m, text, UserAt(m, s), u);
  }

  lemma LaidParsed(m: Markers, text: string, s: string, u: string)
    requires Proper(m) && Laid(m, text, s, u) && Tight(s) && Tight(u) && !Contains(s, m.selfClose)
    ensures ParseText(m, text) == if Contains(u, m.userClose) then Err(TrailingContent) else Ok(s, u)
  {
    SelfShown(m, text, s);
    if Contains(u, m.userClose) {
      UserHidden(m, text, UserAt(m, s), u, s);
    } else {
      UserShown(m, text, UserAt(m, s), u, s);
    }
  }

  /** Printing then parsing returns the stripped channels exactly when neither contains the marker that
      closes it. */
  lemma PrintThenParse(m: Markers, toSelf: string, toUser: string)
    requires Proper(m)
    ensures Parse(m, Format(m, toSelf, toUser)) == Ok(Strip(toSelf), Strip(toUser))
            <==> !Contains(toSelf, m.selfClose) && !Contains(toUser, m.userClose)
  {
    var s, u := Strip(toSelf), Strip(toUser);
    FormatIs(m, toSelf, toUser);
    PrintedEnds(m, s, u);
    StripContains(toSelf, m.selfClose);
    StripContains(toUser, m.userClose);
    StripTwice(toSelf);
    StripTwice(toUser);
    if Contains(s, m.selfClose) {
      SelfHidden(m, s, u);
    } else {
      PrintedLaid(m, s, u, Printed(m, s, u));
      LaidParsed(m, Printed(m, s, u), s, u);
    }
  }

  // ---- printing what was parsed ----

  lemma BeforeFirst(text: string, pattern: string, from: nat, end: nat)
    requires Solid(pattern) && from <= end <= |text| && Find(text, pattern, from) == end
    ensures !Contains(Strip(text[from..end]), pattern)
  {
    FindsFirst(text, pattern, from);
    StripContains(text[from..end], pattern);
    forall i: nat ensures !At(text[from..end], pattern, i) {
      if i + |pattern| <= end - from {
        Shifted(text, from, end, pattern, from + i);
      }
    }
  }

  lemma ParsedUser(m: Markers, text: string, toSelf: string, userStart: nat)
    requires Proper(m) && ParseUser(m, text, toSelf, userStart).Ok?
    ensures var parsed := ParseUser(m, text, toSelf, userStart);
            parsed.toSelf == toSelf && Strip(parsed.toUser) == parsed.toUser && !Contains(parsed.toUser, m.userClose)
  {
    var from := userStart + |m.userOpen|;
    var end := Find(text, m.userClose, from);
    StripTwice(text[from..end]);
    BeforeFirst(text, m.userClose, from, end);
  }

  /** A parsed channel is stripped and lacks the marker that closes it. */
  lemma ParsedChannels(m: Markers, text: string)
    requires Proper(m) && ParseText(m, text).Ok?
    ensures var parsed := ParseText(m, text);
            && Strip(parsed.toSelf) == parsed.toSelf && Strip(parsed.toUser) == parsed.toUser
            && !Contains(parsed.toSelf, m.selfClose) && !Contains(parsed.toUser, m.userClose)
  {
    var end := Find(text, m.selfClose, |m.selfOpen|);
    var toSelf := Strip(text[|m.selfOpen|..end]);
    StripTwice(text[|m.selfOpen|..end]);
    BeforeFirst(text, m.selfClose, |m.selfOpen|, end);
    ParsedUser(m, text, toSelf, First(text, end + |m.selfClose|));
  }

  /** Whatever parses, printing it and parsing again gives the same channels. */
  lemma ParsePrintParse(m: Markers, content: string)
    requires Proper(m) && Parse(m, content).Ok?
    ensures Parse(m, Format(m, Parse(m, content).toSelf, Parse(m, content).toUser)) == Parse(m, content)
  {
    var parsed := Parse(m, content);
    ParsedChannels(m, Strip(content));
    PrintThenParse(m, parsed.toSelf, parsed.toUser);
  }

  /** Both laws for the markers the program uses. */
  lemma EnvelopeRoundTrip(toSelf: string, toUser: string, content: string)
    ensures Parse(MARKERS, Format(MARKERS, toSelf, toUser)) == Ok(Strip(toSelf), Strip(toUser))
            <==> !Contains(toSelf, MARKERS.selfClose) && !Contains(toUser, MARKERS.userClose)
    ensures var parsed := Parse(MARKERS, content);
            parsed.Ok? ==> Parse(MARKERS, Format(MARKERS, parsed.toSelf, parsed.toUser)) == parsed
  {
    MarkersProper();
    PrintThenParse(MARKERS, toSelf, toUser);
    if Parse(MARKERS, content).Ok? {
      ParsePrintParse(MARKERS, content);
    }
  }
}
