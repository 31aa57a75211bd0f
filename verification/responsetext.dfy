/** Locating the JSON payload inside the model's free-text reply
    (services/geminiService.ts): the `/\{[\s\S]*\}/` span and
    `cleanJsonString`, which removes Markdown code-fence markers and trims. */
module ResponseText {
  import opened Base
  import opened Seqs

  // ---------------------------------------------------------------- searching

  function FirstIndex(s: string, c: char): (r: Option<nat>)
    ensures r.None? <==> forall k :: 0 <= k < |s| ==> s[k] != c
    ensures r.Some? ==> r.value < |s| && s[r.value] == c && forall k :: 0 <= k < r.value ==> s[k] != c
  {
    if s == [] then None
    else if s[0] == c then Some(0)
    else
      match FirstIndex(s[1..], c)
      case None => None
      case Some(i) => Some(i + 1)
  }

  function LastIndex(s: string, c: char): (r: Option<nat>)
    ensures r.None? <==> forall k :: 0 <= k < |s| ==> s[k] != c
    ensures r.Some? ==> r.value < |s| && s[r.value] == c && forall k :: r.value < k < |s| ==> s[k] != c
  {
    if s == [] then None
    else if s[|s| - 1] == c then Some(|s| - 1)
    else LastIndex(s[..|s| - 1], c)
  }

  // ------------------------------------------------------------ the JSON span

  /** A half-open range `text[lo..hi]`. */
  datatype Span = Span(lo: nat, hi: nat)

  /** What a match of `/\{[\s\S]*\}/` over `text[i..j]` needs: an opening
      brace at `i` and a distinct closing brace at `j - 1`. */
  ghost predicate MatchAt(text: string, i: int, j: int) {
    0 <= i && i + 2 <= j <= |text| && text[i] == '{' && text[j - 1] == '}'
  }

  /** The match a backtracking regular-expression engine reports: the
      leftmost start at which some match exists, and from there the longest
      end, since `[\s\S]*` is greedy. */
  ghost predicate LeftmostGreedy(text: string, sp: Span) {
    && MatchAt(text, sp.lo, sp.hi)
    && (forall i, j :: 0 <= i < sp.lo ==> !MatchAt(text, i, j))
    && (forall j :: sp.hi < j ==> !MatchAt(text, sp.lo, j))
  }

  /** `text.match(/\{[\s\S]*\}/)`: from the first `{` to the last `}`, when
      that `}` lies after that `{`. */
  function FindJsonSpan(text: string): (r: Option<Span>)
    ensures r.None? <==> forall i, j :: 0 <= i < j < |text| && text[i] == '{' ==> text[j] != '}'
    ensures r.Some? ==>
              && r.value.lo + 2 <= r.value.hi <= |text|
              && text[r.value.lo] == '{' && text[r.value.hi - 1] == '}'
              && (forall k :: 0 <= k < r.value.lo ==> text[k] != '{')
              && (forall k :: r.value.hi <= k < |text| ==> text[k] != '}')
  {
    match FirstIndex(text, '{')
    case None => None
    case Some(a) =>
      match LastIndex(text, '}')
      case None => None
      case Some(b) =>
        if a < b then Some(Span(a, b + 1))
        else
          assert forall i, j :: 0 <= i < j < |text| && text[i] == '{' ==> text[j] != '}' by {
            forall i, j | 0 <= i < j < |text| && text[i] == '{'
              ensures text[j] != '}'
            {
              assert a <= i;
            }
          }
          None
  }

  /** The span found is exactly the regular-expression engine's match, and
      there is no span exactly when the expression matches nowhere. */
  lemma {:induction false} FindJsonSpanIsRegexMatch(text: string)
    ensures FindJsonSpan(text).None? <==> forall i, j :: !MatchAt(text, i, j)
    ensures forall sp :: FindJsonSpan(text) == Some(sp) <==> LeftmostGreedy(text, sp)
  {
    var r := FindJsonSpan(text);
    if r.None? {
      forall i, j
        ensures !MatchAt(text, i, j)
      {
        if 0 <= i && i + 2 <= j <= |text| && text[i] == '{' {
          assert text[j - 1] != '}';
        }
      }
    } else {
      var sp := r.value;
      assert MatchAt(text, sp.lo, sp.hi);
      forall i, j | 0 <= i < sp.lo
        ensures !MatchAt(text, i, j)
      {
        assert text[i] != '{';
      }
      forall j | sp.hi < j
        ensures !MatchAt(text, sp.lo, j)
      {
        if j <= |text| {
          assert text[j - 1] != '}';
        }
      }
      assert LeftmostGreedy(text, sp);
      forall sp' | LeftmostGreedy(text, sp')
        ensures sp' == sp
      {
        assert sp.lo < sp'.lo ==> !MatchAt(text, sp.lo, sp.hi);
        assert sp'.lo <= sp.lo;
        assert text[sp'.lo] == '{';
        assert sp'.lo == sp.lo;
        assert sp'.hi < sp.hi ==> !MatchAt(text, sp'.lo, sp.hi);
        assert text[sp'.hi - 1] == '}';
      }
    }
  }

  // ------------------------------------------------------------- whitespace

  /** ECMAScript WhiteSpace and LineTerminator code points, the set
      `String.prototype.trim` removes. */
  predicate IsJsWhitespace(c: char) {
    var n := c as int;
    n == 0x09 || n == 0x0A || n == 0x0B || n == 0x0C || n == 0x0D || n == 0x20
    || n == 0xA0 || n == 0x1680 || (0x2000 <= n <= 0x200A) || n == 0x2028 || n == 0x2029
    || n == 0x202F || n == 0x205F || n == 0x3000 || n == 0xFEFF
  }

  function TrimStart(s: string): (r: string)
    ensures |r| <= |s| && r == s[|s| - |r|..]
    ensures r == [] || !IsJsWhitespace(r[0])
    ensures forall k :: 0 <= k < |s| - |r| ==> IsJsWhitespace(s[k])
  {
    if s != [] && IsJsWhitespace(s[0]) then TrimStart(s[1..]) else s
  }

  function TrimEnd(s: string): (r: string)
    ensures |r| <= |s| && r == s[..|r|]
    ensures r == [] || !IsJsWhitespace(r[|r| - 1])
    ensures forall k :: |r| <= k < |s| ==> IsJsWhitespace(s[k])
  {
    if s != [] && IsJsWhitespace(s[|s| - 1]) then TrimEnd(s[..|s| - 1]) else s
  }

  /** `String.prototype.trim`. */
  function Trim(s: string): string {
    TrimEnd(TrimStart(s))
  }

  /** Trimming keeps one contiguous slice, cut at the first and last
      non-whitespace characters. */
  lemma {:induction false} TrimIsSlice(s: string)
    ensures exists i, j :: 0 <= i <= j <= |s| && Trim(s) == s[i..j]
    ensures Trim(s) == [] || (!IsJsWhitespace(Trim(s)[0]) && !IsJsWhitespace(Trim(s)[|Trim(s)| - 1]))
    ensures Trim(s) == [] ==> forall k :: 0 <= k < |s| ==> IsJsWhitespace(s[k])
  {
    var a := TrimStart(s);
    var b := TrimEnd(a);
    var i := |s| - |a|;
    assert b == s[i..i + |b|] by {
      assert a == s[i..];
      assert b == a[..|b|];
    }
    if a != [] {
      assert !IsJsWhitespace(a[0]);
      assert |b| > 0;
      assert b[0] == a[0];
    }
  }

  /** A string that neither starts nor ends with whitespace is left alone. */
  lemma {:induction false} TrimNoop(s: string)
    requires s == [] || (!IsJsWhitespace(s[0]) && !IsJsWhitespace(s[|s| - 1]))
    ensures Trim(s) == s
  {
  }

  // -------------------------------------------------------- code fences

  const Fence: string := "```"
  const JsonFence: string := "```json"

  predicate StartsWith(s: string, prefix: string) {
    |prefix| <= |s| && s[..|prefix|] == prefix
  }

  /** `s.replace(/```json\n?|```/g, '')`: scanning left to right, a marker
      starting at the current position is dropped (the `json` alternative,
      with its optional newline, is tried first), otherwise one character is
      kept and the scan moves on. Removed text is never rescanned. */
  function StripFences(s: string): string {
    if StartsWith(s, JsonFence + "\n") then StripFences(s[|JsonFence| + 1..])
    else if StartsWith(s, JsonFence) then StripFences(s[|JsonFence|..])
    else if StartsWith(s, Fence) then StripFences(s[|Fence|..])
    else if s == [] then []
    else [s[0]] + StripFences(s[1..])
  }

  /** `cleanJsonString`. */
  function CleanJsonString(s: string): string {
    Trim(StripFences(s))
  }

  /** The scan drops a `json` marker together with the newline after it. */
  lemma {:induction false} StripFencesJsonLine(s: string)
    ensures StripFences(JsonFence + "\n" + s) == StripFences(s)
  {
    var t := JsonFence + "\n" + s;
    assert t[..|JsonFence| + 1] == JsonFence + "\n";
    assert t[|JsonFence| + 1..] == s;
  }

  /** A `json` marker not followed by a newline is dropped on its own. */
  lemma {:induction false} StripFencesJsonTag(s: string)
    requires s == [] || s[0] != '\n'
    ensures StripFences(JsonFence + s) == StripFences(s)
  {
    var t := JsonFence + s;
    assert |t| > |JsonFence| ==> t[|JsonFence|] == s[0];
    assert (JsonFence + "\n")[|JsonFence|] == '\n';
    assert !StartsWith(t, JsonFence + "\n");
    assert t[..|JsonFence|] == JsonFence;
    assert t[|JsonFence|..] == s;
  }

  /** A bare marker, one not continued by `json`, is dropped. */
  lemma {:induction false} StripFencesBareFence(s: string)
    requires !StartsWith(s, "json")
    ensures StripFences(Fence + s) == StripFences(s)
  {
    var t := Fence + s;
    assert |t| >= |JsonFence| ==> t[3..7] == s[..4];
    assert JsonFence[3..7] == "json";
    assert !StartsWith(t, JsonFence);
    assert |t| >= |JsonFence| + 1 ==> t[..|JsonFence|] == t[..|JsonFence| + 1][..|JsonFence|];
    assert (JsonFence + "\n")[..|JsonFence|] == JsonFence;
    assert !StartsWith(t, JsonFence + "\n");
    assert t[..|Fence|] == Fence;
    assert t[|Fence|..] == s;
  }

  /** Any character other than a backtick is kept, and the scan moves on. */
  lemma {:induction false} StripFencesKeepsChar(c: char, s: string)
    requires c != '`'
    ensures StripFences([c] + s) == [c] + StripFences(s)
  {
    var t := [c] + s;
    assert !StartsWith(t, Fence) && !StartsWith(t, JsonFence) && !StartsWith(t, JsonFence + "\n") by {
      assert t[0] == c;
      assert Fence[0] == '`' && JsonFence[0] == '`' && (JsonFence + "\n")[0] == '`';
    }
    assert t[1..] == s;
  }

  /** Text without backticks in front of anything passes through unchanged. */
  lemma {:induction false} StripFencesPlainPrefix(t: string, u: string)
    requires forall k :: 0 <= k < |t| ==> t[k] != '`'
    ensures StripFences(t + u) == t + StripFences(u)
  {
    if t != [] {
      var c, rest := t[0], t[1..];
      calc {
        StripFences(t + u);
        { assert t + u == [c] + (rest + u); }
        StripFences([c] + (rest + u));
        { StripFencesKeepsChar(c, rest + u); }
        [c] + StripFences(rest + u);
        { assert forall k :: 0 <= k < |rest| ==> rest[k] == t[k + 1];
          StripFencesPlainPrefix(rest, u); }
        [c] + (rest + StripFences(u));
        { assert [c] + rest == t; }
        t + StripFences(u);
      }
    } else {
      assert t + u == u;
    }
  }

  /** Three backticks in a row starting at position `k`. */
  predicate FenceAt(s: string, k: int) {
    0 <= k && k + 3 <= |s| && s[k] == '`' && s[k + 1] == '`' && s[k + 2] == '`'
  }

  lemma {:induction false} StripFencesIsSubsequence(s: string)
    ensures IsSubsequence(StripFences(s), s)
    decreases |s|
  {
    if StartsWith(s, JsonFence + "\n") {
      StripDropped(s, |JsonFence| + 1);
    } else if StartsWith(s, JsonFence) {
      StripDropped(s, |JsonFence|);
    } else if StartsWith(s, Fence) {
      StripDropped(s, |Fence|);
    } else if s != [] {
      StripFencesIsSubsequence(s[1..]);
      var r := [s[0]] + StripFences(s[1..]);
      assert r[1..] == StripFences(s[1..]);
    }
  }

  lemma {:induction false} StripDropped(s: string, n: nat)
    requires 0 < n <= |s|
    ensures IsSubsequence(StripFences(s[n..]), s)
    decreases |s|, 0
  {
    StripFencesIsSubsequence(s[n..]);
    SliceIsSubsequence(s, n, |s|);
    assert s[n..|s|] == s[n..];
    SubsequenceTransitive(StripFences(s[n..]), s[n..], s);
  }

  /** Text without any backtick has no marker to remove. */
  lemma {:induction false} StripFencesNoBacktick(s: string)
    requires forall k :: 0 <= k < |s| ==> s[k] != '`'
    ensures StripFences(s) == s
  {
    if s != [] {
      assert !StartsWith(s, Fence) by {
        assert s[0] != Fence[0];
      }
      assert !StartsWith(s, JsonFence) by {
        assert s[0] != JsonFence[0];
      }
      assert !StartsWith(s, JsonFence + "\n") by {
        assert s[0] != (JsonFence + "\n")[0];
      }
      StripFencesNoBacktick(s[1..]);
      assert [s[0]] + s[1..] == s;
    }
  }

  /** A result that starts with a backtick comes from an input that does. */
  lemma {:induction false} StripFencesHead(s: string)
    ensures StripFences(s) != [] && StripFences(s)[0] == '`' ==> s != [] && s[0] == '`'
    ensures |StripFences(s)| >= 2 && StripFences(s)[0] == '`' && StripFences(s)[1] == '`' ==>
              |s| >= 2 && s[0] == '`' && s[1] == '`'
    decreases |s|
  {
    if StartsWith(s, JsonFence + "\n") {
      assert s[..|JsonFence| + 1] == JsonFence + "\n";
      assert s[0] == '`' && s[1] == '`';
    } else if StartsWith(s, JsonFence) {
      assert s[..|JsonFence|] == JsonFence;
      assert s[0] == '`' && s[1] == '`';
    } else if StartsWith(s, Fence) {
      assert s[..|Fence|] == Fence;
      assert s[0] == '`' && s[1] == '`';
    } else if s != [] {
      StripFencesHead(s[1..]);
      var r := [s[0]] + StripFences(s[1..]);
      assert r[1..] == StripFences(s[1..]);
    }
  }

  /** No run of three backticks survives the removal, not even one formed
      from characters on both sides of a removed marker. */
  lemma {:induction false} StripFencesLeavesNoFence(s: string)
    ensures forall k :: !FenceAt(StripFences(s), k)
    decreases |s|
  {
    if StartsWith(s, JsonFence + "\n") {
      StripFencesLeavesNoFence(s[|JsonFence| + 1..]);
    } else if StartsWith(s, JsonFence) {
      StripFencesLeavesNoFence(s[|JsonFence|..]);
    } else if StartsWith(s, Fence) {
      StripFencesLeavesNoFence(s[|Fence|..]);
    } else if s != [] {
      var t := StripFences(s[1..]);
      var r := [s[0]] + t;
      StripFencesLeavesNoFence(s[1..]);
      StripFencesHead(s[1..]);
      forall k
        ensures !FenceAt(r, k)
      {
        if k > 0 {
          assert FenceAt(r, k) == FenceAt(t, k - 1);
        } else {
          assert FenceAt(r, k) ==> StartsWith(s, Fence);
        }
      }
    }
  }

  /** A three-backtick run inside a slice is one of the whole string. */
  lemma {:induction false} FenceInSlice(s: string, i: nat, j: nat, k: int)
    requires i <= j <= |s|
    requires FenceAt(s[i..j], k)
    ensures FenceAt(s, i + k)
  {
    assert s[i..j][k] == s[i + k] && s[i..j][k + 1] == s[i + k + 1] && s[i..j][k + 2] == s[i + k + 2];
  }

  /** A slice of text without a three-backtick run has none either. */
  lemma {:induction false} NoFenceInSlice(s: string, i: nat, j: nat)
    requires i <= j <= |s|
    requires forall k :: !FenceAt(s, k)
    ensures forall k :: !FenceAt(s[i..j], k)
  {
    forall k
      ensures !FenceAt(s[i..j], k)
    {
      assert FenceAt(s[i..j], k) ==> FenceAt(s, i + k) by {
        if FenceAt(s[i..j], k) {
          FenceInSlice(s, i, j, k);
        }
      }
    }
  }

  /** `cleanJsonString` deletes characters and never reorders or adds any. */
  lemma {:induction false} CleanIsSubsequence(s: string)
    ensures IsSubsequence(CleanJsonString(s), s)
  {
    var t := StripFences(s);
    TrimIsSubsequence(t);
    StripFencesIsSubsequence(s);
    SubsequenceTransitive(Trim(t), t, s);
  }

  lemma {:induction false} TrimIsSubsequence(t: string)
    ensures IsSubsequence(Trim(t), t)
  {
    TrimIsSlice(t);
    var i, j :| 0 <= i <= j <= |t| && Trim(t) == t[i..j];
    SliceIsSubsequence(t, i, j);
  }

  /** `cleanJsonString` leaves no three-backtick marker behind. */
  lemma {:induction false} CleanLeavesNoFence(s: string)
    ensures forall k :: !FenceAt(CleanJsonString(s), k)
  {
    var t := StripFences(s);
    TrimIsSlice(t);
    var i, j :| 0 <= i <= j <= |t| && Trim(t) == t[i..j];
    StripFencesLeavesNoFence(s);
    NoFenceInSlice(t, i, j);
  }

  /** `cleanJsonString` deletes characters and never reorders or adds any,
      leaves no three-backtick marker behind, and on text without backticks
      only trims. */
  lemma {:induction false} CleanJsonStringSpec(s: string)
    ensures IsSubsequence(CleanJsonString(s), s)
    ensures forall k :: !FenceAt(CleanJsonString(s), k)
    ensures (forall k :: 0 <= k < |s| ==> s[k] != '`') ==> CleanJsonString(s) == Trim(s)
  {
    CleanIsSubsequence(s);
    CleanLeavesNoFence(s);
    if forall k :: 0 <= k < |s| ==> s[k] != '`' {
      StripFencesNoBacktick(s);
    }
  }

  /** A leading whitespace character does not change the trimmed text. */
  lemma {:induction false} TrimDropsLeadingWhitespace(c: char, x: string)
    requires IsJsWhitespace(c)
    ensures Trim([c] + x) == Trim(x)
  {
    assert ([c] + x)[1..] == x;
  }

  /** Trimming the start commutes with appending, once a non-whitespace
      character has been met. */
  lemma {:induction false} TrimStartAppend(x: string, u: string)
    ensures TrimStart(x) != [] ==> TrimStart(x + u) == TrimStart(x) + u
    ensures TrimStart(x) == [] ==> TrimStart(x + u) == TrimStart(u)
  {
    if x == [] {
      assert x + u == u;
    } else if IsJsWhitespace(x[0]) {
      assert (x + u)[1..] == x[1..] + u;
      TrimStartAppend(x[1..], u);
    } else {
      assert (x + u)[0] == x[0];
    }
  }

  /** A trailing whitespace character does not change the trimmed text. */
  lemma {:induction false} TrimDropsTrailingWhitespace(x: string, c: char)
    requires IsJsWhitespace(c)
    ensures Trim(x + [c]) == Trim(x)
  {
    TrimStartAppend(x, [c]);
    var a := TrimStart(x);
    if a != [] {
      assert (a + [c])[..|a|] == a;
    } else {
      assert TrimStart([c]) == TrimStart([c][1..]);
    }
  }

  /** Marker removal on a block's contents and its closing marker keeps the
      contents. */
  lemma {:induction false} StripClosedBlock(body: string)
    requires forall k :: 0 <= k < |body| ==> body[k] != '`'
    ensures StripFences(body + Fence) == body
  {
    StripFencesPlainPrefix(body, Fence);
    StripFencesBareFence([]);
    assert Fence + [] == Fence;
  }

  /** A reply wrapped in a code block tagged `json` is cleaned to its
      trimmed contents. */
  lemma {:induction false} CleanJsonFencedBlock(t: string)
    requires forall k :: 0 <= k < |t| ==> t[k] != '`'
    ensures CleanJsonString(JsonFence + "\n" + t + "\n" + Fence) == Trim(t)
  {
    var body := t + "\n";
    assert StripFences(body + Fence) == body by {
      assert forall k :: 0 <= k < |body| ==> body[k] != '`';
      StripClosedBlock(body);
    }
    assert JsonFence + "\n" + t + "\n" + Fence == JsonFence + "\n" + (body + Fence);
    StripFencesJsonLine(body + Fence);
    TrimDropsTrailingWhitespace(t, '\n');
  }

  /** A reply wrapped in an untagged code block is cleaned to its trimmed
      contents. */
  lemma {:induction false} CleanBareFencedBlock(t: string)
    requires forall k :: 0 <= k < |t| ==> t[k] != '`'
    ensures CleanJsonString(Fence + "\n" + t + "\n" + Fence) == Trim(t)
  {
    var body := t + "\n";
    var nl := ['\n'] + body;
    assert StripFences(nl + Fence) == nl by {
      assert forall k :: 0 <= k < |nl| ==> nl[k] != '`';
      StripClosedBlock(nl);
    }
    assert Fence + "\n" + t + "\n" + Fence == Fence + (nl + Fence);
    assert StripFences(Fence + (nl + Fence)) == nl by {
      assert (nl + Fence)[0] == '\n';
      StripFencesBareFence(nl + Fence);
    }
    assert Trim(nl) == Trim(t) by {
      TrimDropsLeadingWhitespace('\n', body);
      TrimDropsTrailingWhitespace(t, '\n');
    }
  }

  /** The last character survives marker removal when it is a closing brace,
      because no marker contains one. */
  lemma {:induction false} StripFencesKeepsClosingBrace(s: string)
    requires s != [] && s[|s| - 1] == '}'
    ensures StripFences(s) != [] && StripFences(s)[|StripFences(s)| - 1] == '}'
    decreases |s|
  {
    if StartsWith(s, JsonFence + "\n") {
      assert s[..|JsonFence| + 1] == JsonFence + "\n";
      assert s[|JsonFence|] == '\n';
      assert s[|JsonFence| + 1..][|s| - |JsonFence| - 2] == '}';
      StripFencesKeepsClosingBrace(s[|JsonFence| + 1..]);
    } else if StartsWith(s, JsonFence) {
      assert s[..|JsonFence|] == JsonFence;
      assert s[|JsonFence| - 1] == 'n';
      assert s[|JsonFence|..][|s| - |JsonFence| - 1] == '}';
      StripFencesKeepsClosingBrace(s[|JsonFence|..]);
    } else if StartsWith(s, Fence) {
      assert s[..|Fence|] == Fence;
      assert s[|Fence| - 1] == '`';
      assert s[|Fence|..][|s| - |Fence| - 1] == '}';
      StripFencesKeepsClosingBrace(s[|Fence|..]);
    } else if |s| > 1 {
      assert s[1..][|s| - 2] == '}';
      StripFencesKeepsClosingBrace(s[1..]);
    }
  }

  /** The cleaned span handed to `JSON.parse` still opens with `{` and
      closes with `}`: cleaning cannot turn the span into a non-object text. */
  lemma {:induction false} CleanedSpanIsBraced(text: string)
    requires FindJsonSpan(text).Some?
    ensures var sp := FindJsonSpan(text).value;
            var c := CleanJsonString(text[sp.lo..sp.hi]);
            |c| >= 2 && c[0] == '{' && c[|c| - 1] == '}'
  {
    var sp := FindJsonSpan(text).value;
    var s := text[sp.lo..sp.hi];
    assert s[0] == '{' && s[|s| - 1] == '}';
    assert !StartsWith(s, Fence) && !StartsWith(s, JsonFence) && !StartsWith(s, JsonFence + "\n") by {
      assert Fence[0] == '`' && JsonFence[0] == '`' && (JsonFence + "\n")[0] == '`';
    }
    var t := StripFences(s);
    assert t == [s[0]] + StripFences(s[1..]);
    StripFencesKeepsClosingBrace(s);
    TrimNoop(t);
  }
}
