/** How `get_events` pulls the events text out of the page's scripts: the
    regular expression `sff\.v\.vendor_locations = (.*);` searched in each
    script, the last script that matches winning, `null` replaced by `""`,
    and an exit with status 1 when nothing usable was found. */
module Extract {
  import opened Failures

  const PREFIX := "sff.v.vendor_locations = "
  const NO_EVENTS := "Unable to parse events from HTTP response"

  /** The literal part of the pattern occurs at `i`. */
  predicate StartsAt(s: string, i: nat) {
    i + |PREFIX| <= |s| && s[i..i + |PREFIX|] == PREFIX
  }

  /** `.` matches every character but a newline. */
  predicate NoNewline(s: string, b: nat, k: nat)
    requires b <= k <= |s|
  {
    forall j :: b <= j < k ==> s[j] != '\n'
  }

  /** `k` is a `;` that the pattern anchored at `i` can end on: `(.*)`
      covers `s[i + |PREFIX|..k]`, which holds no newline. */
  predicate Candidate(s: string, i: nat, k: nat) {
    && StartsAt(s, i)
    && i + |PREFIX| <= k < |s|
    && s[k] == ';'
    && NoNewline(s, i + |PREFIX|, k)
  }

  /** The end of the line that position `b` is on. */
  function LineEnd(s: string, b: nat): (e: nat)
    requires b <= |s|
    ensures b <= e <= |s| && NoNewline(s, b, e)
    ensures e < |s| ==> s[e] == '\n'
    decreases |s| - b
  {
    if b == |s| || s[b] == '\n' then b else LineEnd(s, b + 1)
  }

  /** The last `;` in `s[b..e]`. */
  function LastSemicolon(s: string, b: nat, e: nat): (r: Option<nat>)
    requires b <= e <= |s|
    ensures r.Some? ==> b <= r.value < e && s[r.value] == ';'
    ensures r.Some? ==> forall j :: r.value < j < e ==> s[j] != ';'
    ensures r.None? ==> forall j :: b <= j < e ==> s[j] != ';'
    decreases e
  {
    if e == b then None
    else if s[e - 1] == ';' then Some(e - 1)
    else LastSemicolon(s, b, e - 1)
  }

  /** Where the greedy `(.*);` anchored at `i` ends: the last `;` on the
      line, if the line has one. */
  function MatchEnd(s: string, i: nat): (r: Option<nat>)
    ensures r.Some? ==> Candidate(s, i, r.value)
    ensures r.Some? ==> forall k :: r.value < k < |s| ==> !Candidate(s, i, k)
    ensures r.None? ==> forall k :: 0 <= k < |s| ==> !Candidate(s, i, k)
  {
    if !StartsAt(s, i) then None
    else
      var b := i + |PREFIX|;
      var e := LineEnd(s, b);
      var r := LastSemicolon(s, b, e);
      assert forall k :: e < k < |s| ==> !NoNewline(s, b, k) by {
        forall k | e < k < |s| ensures !NoNewline(s, b, k) {
          assert b <= e < k && s[e] == '\n';
        }
      }
      r
  }

  /** `re.search`: the leftmost position from `i` on where the pattern
      matches, with the end of that match. */
  function SearchFrom(s: string, i: nat): (r: Option<(nat, nat)>)
    requires i <= |s|
    ensures r.Some? ==> i <= r.value.0 <= |s| && MatchEnd(s, r.value.0) == Some(r.value.1)
    ensures r.Some? ==> forall q :: i <= q < r.value.0 ==> MatchEnd(s, q).None?
    ensures r.None? ==> forall q :: i <= q <= |s| ==> MatchEnd(s, q).None?
    decreases |s| - i
  {
    var here := MatchEnd(s, i);
    if here.Some? then Some((i, here.value))
    else if i == |s| then None
    else SearchFrom(s, i + 1)
  }

  /** `match.group(1)` of the search in one script, if it matches. */
  function Find(s: string): (r: Option<string>)
    ensures r.None? <==> forall q: nat, k: nat :: 0 <= q <= |s| && 0 <= k < |s| ==> !Candidate(s, q, k)
  {
    match SearchFrom(s, 0)
    case None =>
      assert forall q: nat, k: nat :: 0 <= q <= |s| && 0 <= k < |s| ==> !Candidate(s, q, k) by {
        forall q: nat, k: nat | 0 <= q <= |s| && 0 <= k < |s| ensures !Candidate(s, q, k) {
          assert MatchEnd(s, q).None?;
        }
      }
      None
    case Some((p, k)) =>
      assert Candidate(s, p, k);
      Some(s[p + |PREFIX|..k])
  }

  /** The capture is what follows the leftmost occurrence of the pattern's
      literal part that can match, up to the last `;` on its line. */
  lemma FindCapture(s: string)
    requires Find(s).Some?
    ensures exists p: nat, k: nat :: && Candidate(s, p, k) && Find(s).value == s[p + |PREFIX|..k]
                           && (forall q :: 0 <= q < p ==> MatchEnd(s, q).None?)
                           && (forall k' :: k < k' < |s| ==> !Candidate(s, p, k'))
  {
    var p := SearchFrom(s, 0).value.0;
    var k := SearchFrom(s, 0).value.1;
    assert Candidate(s, p, k) && Find(s).value == s[p + |PREFIX|..k];
  }

  /** A script whose text opens with the assignment: the capture is the
      whole right-hand side up to the `;` that ends its line, `;`s inside it
      included, and nothing of the following lines. */
  lemma FindAssignment(body: string, tail: string)
    requires forall j :: 0 <= j < |body| ==> body[j] != '\n'
    requires tail == [] || tail[0] == '\n'
    ensures Find(PREFIX + body + ";" + tail) == Some(body)
  {
    var s := PREFIX + body + ";" + tail;
    var n: nat := |PREFIX| + |body|;
    assert s[..|PREFIX|] == PREFIX;
    assert s[n] == ';';
    assert forall j :: |PREFIX| <= j < n ==> s[j] == body[j - |PREFIX|];
    assert Candidate(s, 0, n);
    forall k | n < k < |s|
      ensures !Candidate(s, 0, k)
    {
      assert s[n + 1] == tail[0] == '\n';
      assert n + 1 < k ==> !NoNewline(s, |PREFIX|, k);
    }
    assert SearchFrom(s, 0) == Some((0, n));
    assert s[|PREFIX|..n] == body;
  }

  /** The occurrences of `null` in `s`. */
  predicate NullAt(s: string, j: nat) {
    j + 4 <= |s| && s[j..j + 4] == "null"
  }

  predicate HasNull(s: string) {
    exists j: nat :: j < |s| && NullAt(s, j)
  }

  /** `str.replace("null", '""')`: left to right, without overlaps. */
  function ReplaceNull(s: string): (r: string)
    ensures r == [] <==> s == []
    decreases |s|
  {
    if s == [] then []
    else if NullAt(s, 0) then "\"\"" + ReplaceNull(s[4..])
    else [s[0]] + ReplaceNull(s[1..])
  }

  /** A quote-free prefix of the replaced text was already in the original. */
  lemma {:induction false} QuoteFreePrefix(t: string, w: string)
    requires |w| <= |ReplaceNull(t)| && ReplaceNull(t)[..|w|] == w
    requires forall j :: 0 <= j < |w| ==> w[j] != '"'
    ensures |w| <= |t| && t[..|w|] == w
    decreases |w|
  {
    if w != [] {
      var r := ReplaceNull(t);
      assert r[0] == w[0];
      assert !NullAt(t, 0);
      assert r == [t[0]] + ReplaceNull(t[1..]);
      assert ReplaceNull(t[1..])[..|w| - 1] == w[1..] by {
        assert r[1..][..|w| - 1] == w[1..];
      }
      QuoteFreePrefix(t[1..], w[1..]);
      assert t[1..][..|w| - 1] == w[1..];
    }
  }

  /** After the replacement no `null` is left. */
  lemma {:induction false} ReplaceNullRemovesAll(s: string)
    ensures !HasNull(ReplaceNull(s))
    decreases |s|
  {
    var r := ReplaceNull(s);
    if s == [] {
    } else if NullAt(s, 0) {
      ReplaceNullRemovesAll(s[4..]);
      var rest := ReplaceNull(s[4..]);
      assert r == "\"\"" + rest;
      forall j: nat | j < |r| ensures !NullAt(r, j) {
        if j >= 2 {
          if j + 4 <= |r| {
            assert r[j..j + 4] == rest[j - 2..j + 2];
          }
          assert !NullAt(rest, j - 2);
        } else {
          assert r[j] == '"';
        }
      }
    } else {
      ReplaceNullRemovesAll(s[1..]);
      var rest := ReplaceNull(s[1..]);
      assert r == [s[0]] + rest;
      forall j: nat | j < |r| ensures !NullAt(r, j) {
        if j >= 1 {
          if j + 4 <= |r| {
            assert r[j..j + 4] == rest[j - 1..j + 3];
          }
          assert !NullAt(rest, j - 1);
        } else if NullAt(r, 0) {
          assert rest[..3] == r[1..4] == "ull";
          QuoteFreePrefix(s[1..], "ull");
          assert false;
        }
      }
    }
  }

  /** A text without `null` comes through unchanged. */
  lemma {:induction false} ReplaceNullKeeps(s: string)
    requires !HasNull(s)
    ensures ReplaceNull(s) == s
    decreases |s|
  {
    if s != [] {
      assert !NullAt(s, 0);
      NoNullTail(s);
      ReplaceNullKeeps(s[1..]);
    }
  }

  lemma NoNullTail(s: string)
    requires s != [] && !HasNull(s)
    ensures !HasNull(s[1..])
  {
    forall j: nat | NullAt(s[1..], j) ensures false {
      assert s[1..][j..j + 4] == s[j + 1..j + 5];
      assert NullAt(s, j + 1);
    }
  }

  /** Each `null` becomes an empty string literal: the first `null` after a
      stretch without one is replaced, and the text before it kept. */
  lemma {:induction false} ReplaceNullStep(p: string, q: string)
    requires !HasNull(p)
    ensures ReplaceNull(p + "null" + q) == p + "\"\"" + ReplaceNull(q)
    decreases |p|
  {
    var s := p + "null" + q;
    if p == [] {
      assert s == "null" + q && NullAt(s, 0) && s[4..] == q;
    } else {
      NoNullBefore(p, q);
      NoNullTail(p);
      assert s[1..] == p[1..] + "null" + q;
      ReplaceNullStep(p[1..], q);
      assert p == [p[0]] + p[1..];
    }
  }

  /** A `null` cannot start inside a stretch without one and end in the
      `null` that follows it. */
  lemma NoNullBefore(p: string, q: string)
    requires p != [] && !HasNull(p)
    ensures !NullAt(p + "null" + q, 0)
  {
    var s := p + "null" + q;
    if |p| >= 4 {
      assert s[0..4] == p[0..4];
      assert !NullAt(p, 0);
    } else {
      assert s[0..4][|p|] == s[|p|] == 'n' != "null"[|p|];
    }
  }

  /** The replacement changes a text exactly when it holds a `null`. */
  lemma ReplaceNullIdentityIff(s: string)
    ensures ReplaceNull(s) == s <==> !HasNull(s)
  {
    if HasNull(s) {
      ReplaceNullRemovesAll(s);
    } else {
      ReplaceNullKeeps(s);
    }
  }

  /** Replacing twice is replacing once. */
  lemma ReplaceNullIdempotent(s: string)
    ensures ReplaceNull(ReplaceNull(s)) == ReplaceNull(s)
  {
    ReplaceNullRemovesAll(s);
    ReplaceNullKeeps(ReplaceNull(s));
  }

  /** What one script contributes: `if tag.string:` skips scripts without
      a single text child and empty ones; then the search. */
  function ScriptCapture(script: Option<string>): Option<string> {
    if script.Some? && script.value != "" then Find(script.value) else None
  }

  /** What each script contributes, in page order. */
  function Captures(scripts: seq<Option<string>>): (c: seq<Option<string>>)
    ensures |c| == |scripts| && forall j :: 0 <= j < |c| ==> c[j] == ScriptCapture(scripts[j])
  {
    seq(|scripts|, j requires 0 <= j < |scripts| => ScriptCapture(scripts[j]))
  }

  /** The last position that holds a capture, after which none does. */
  function LastMatch(caps: seq<Option<string>>): (r: Option<nat>)
    ensures r.Some? ==> r.value < |caps| && caps[r.value].Some?
    ensures r.Some? ==> forall j :: r.value < j < |caps| ==> caps[j].None?
    ensures r.None? ==> forall j :: 0 <= j < |caps| ==> caps[j].None?
    decreases |caps|
  {
    if caps == [] then None
    else if caps[|caps| - 1].Some? then Some(|caps| - 1)
    else LastMatch(caps[..|caps| - 1])
  }

  /** `events_string` after the loop over the scripts: the last capture
      with `null` replaced, or empty when no script matched. */
  function EventsString(scripts: seq<Option<string>>): string {
    var caps := Captures(scripts);
    match LastMatch(caps)
    case None => ""
    case Some(j) => ReplaceNull(caps[j].value)
  }

  /** What `get_events` hands to `json.loads`, or the exit it takes. */
  function ExtractEvents(scripts: seq<Option<string>>): Result<string> {
    var text := EventsString(scripts);
    if text == "" then Err(Exit(1, NO_EVENTS)) else Ok(text)
  }

  /** `get_events` exits exactly when no script matches or the last match
      captured nothing; otherwise it gives the last capture with every
      `null` replaced, which holds no `null` any more. */
  lemma ExtractEventsOutcome(scripts: seq<Option<string>>)
    ensures var last := LastMatch(Captures(scripts));
      ExtractEvents(scripts).Err? <==> last == None || ScriptCapture(scripts[last.value]) == Some("")
    ensures ExtractEvents(scripts).Err? ==> ExtractEvents(scripts).error == Exit(1, NO_EVENTS)
    ensures var last := LastMatch(Captures(scripts));
      ExtractEvents(scripts).Ok? ==>
        && ExtractEvents(scripts).value == ReplaceNull(ScriptCapture(scripts[last.value]).value)
        && !HasNull(ExtractEvents(scripts).value)
  {
    var last := LastMatch(Captures(scripts));
    if last.Some? {
      ReplaceNullRemovesAll(ScriptCapture(scripts[last.value]).value);
    }
  }

  /** One more script: a capture of its own replaces `events_string`,
      otherwise `events_string` stays. */
  lemma EventsStringStep(scripts: seq<Option<string>>, i: nat)
    requires i < |scripts|
    ensures EventsString(scripts[..i + 1])
         == match ScriptCapture(scripts[i])
            case Some(c) => ReplaceNull(c)
            case None => EventsString(scripts[..i])
  {
    assert Captures(scripts[..i + 1])[..i] == Captures(scripts[..i]);
  }

  /** The loop of `get_events` over the page's `<script>` tags, each given
      as its `tag.string`. */
  method GetEvents(scripts: seq<Option<string>>) returns (r: Result<string>)
    ensures r == ExtractEvents(scripts)
  {
    var eventsString := "";
    var i := 0;
    while i < |scripts|
      invariant 0 <= i <= |scripts|
      invariant eventsString == EventsString(scripts[..i])
    {
      var script := scripts[i];
      if script.Some? && script.value != "" {
        var found := Find(script.value);
        if found.Some? {
          eventsString := ReplaceNull(found.value);
        }
      }
      EventsStringStep(scripts, i);
      i := i + 1;
    }
    assert scripts[..i] == scripts;
    if eventsString == "" {
      return Err(Exit(1, NO_EVENTS));
    }
    return Ok(eventsString);
  }
}
