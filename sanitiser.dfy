/**
 * The clean-up applied to the language model's reply before it is executed:
 * `sql_query.strip().strip("```sql").strip("```")`.
 *
 * Because `strip` reads its argument as a set of characters, the second call removes any run
 * of '`', 's', 'q' and 'l' at either end, not the substring "```sql". A fenced reply therefore
 * keeps the newlines inside the fence, and a query starting or ending with a lower-case s, q or
 * l loses those letters (an unfenced "select" loses its "s").
 */
module Sanitiser {
  import opened PyStrip

  /** The characters `strip("```sql")` removes. */
  const FenceChars: set<char> := {'`', 's', 'q', 'l'}

  /** The characters `strip("```")` removes. */
  const Backtick: set<char> := {'`'}

  lemma FenceArgumentsAsSets()
    ensures CharSet("```sql") == FenceChars
    ensures CharSet("```") == Backtick
    ensures Backtick <= FenceChars
  {
    assert forall c :: c in CharSet("```sql") <==> c in FenceChars;
    assert forall c :: c in CharSet("```") <==> c == '`';
  }

  /** `sql_query.strip().strip("```sql").strip("```")`, the two arguments read as the sets
      `FenceChars` and `Backtick` (see `FenceArgumentsAsSets`). */
  function Sanitise(raw: string): (r: string)
    ensures r == [] || (r[0] !in FenceChars && r[|r| - 1] !in FenceChars)
    ensures |r| <= |raw|
  {
    var stripped := Strip(Strip(raw, Whitespace), FenceChars);
    StripClean(stripped, Backtick);
    Strip(stripped, Backtick)
  }

  /** Only characters at the two ends are removed, and each of them is whitespace or one of
      the fence characters: the result is a contiguous slice of the reply. */
  lemma SanitiseIsSlice(raw: string)
    ensures IsTrimOf(Sanitise(raw), raw, Whitespace + FenceChars)
    ensures exists i: nat, j: nat :: i <= j <= |raw| && Sanitise(raw) == raw[i..j]
  {
    FenceArgumentsAsSets();
    var t1 := Strip(raw, Whitespace);
    var t2 := Strip(t1, FenceChars);
    StripIsTrim(raw, Whitespace);
    StripIsTrim(t1, FenceChars);
    TrimCompose(t2, t1, raw, Whitespace, FenceChars);
    FinalStripIsNoOp(raw);
  }

  /** The last call, `.strip("```")`, never changes anything: after `.strip("```sql")` no
      backtick is left at either end. */
  lemma FinalStripIsNoOp(raw: string)
    ensures Sanitise(raw) == Strip(Strip(raw, Whitespace), FenceChars)
  {
    FenceArgumentsAsSets();
    StripClean(Strip(Strip(raw, Whitespace), FenceChars), Backtick);
  }

  /** A reply that starts and ends with a character that is neither whitespace nor a fence
      character is passed through unchanged. */
  lemma SanitiseKeepsCleanQuery(raw: string)
    requires raw != []
    requires raw[0] !in Whitespace && raw[0] !in FenceChars
    requires raw[|raw| - 1] !in Whitespace && raw[|raw| - 1] !in FenceChars
    ensures Sanitise(raw) == raw
  {
    FenceArgumentsAsSets();
    StripClean(raw, Whitespace);
    StripClean(raw, FenceChars);
    StripClean(raw, Backtick);
  }

  /** Sanitising a sanitised query changes it exactly when it is non-empty and starts or ends
      with whitespace, which happens whenever the fence enclosed a newline. */
  lemma SanitiseIdempotentExactly(raw: string)
    ensures var r := Sanitise(raw);
      Sanitise(r) == r <==> (r == [] || (r[0] !in Whitespace && r[|r| - 1] !in Whitespace))
  {
    var r := Sanitise(raw);
    if r == [] || (r[0] !in Whitespace && r[|r| - 1] !in Whitespace) {
      if r != [] {
        SanitiseKeepsCleanQuery(r);
      }
    } else {
      var t := Strip(r, Whitespace);
      var i: nat, j: nat :| i <= j <= |r| && t == r[i..j] && StrippedAt(r, Whitespace, i, j);
      assert |t| < |r|;
      FinalStripIsNoOp(r);
    }
  }

  /** Evaluates `Sanitise` when the fence strip has nothing left to remove. */
  lemma SanitiseAfterSpace(raw: string, i: nat, j: nat)
    requires i < j <= |raw| && StrippedAt(raw, Whitespace, i, j)
    requires raw[i] !in FenceChars && raw[j - 1] !in FenceChars
    ensures Sanitise(raw) == raw[i..j]
  {
    StripUnique(raw[i..j], raw, Whitespace);
    StripClean(raw[i..j], FenceChars);
    FinalStripIsNoOp(raw);
  }

  /** A reply fenced as "```sql" + body + "```" sanitises to the body itself, including any
      whitespace just inside the fence, provided the body does not start or end with a fence
      character. */
  lemma FencedReplyGivesBody(body: string)
    requires body != [] && body[0] !in FenceChars && body[|body| - 1] !in FenceChars
    ensures Sanitise("```sql" + body + "```") == body
  {
    var raw := "```sql" + body + "```";
    var n := |raw|;
    assert raw[0] == '`' && raw[n - 1] == '`';
    StripClean(raw, Whitespace);
    assert StrippedAt(raw, FenceChars, 6, 6 + |body|) by {
      forall k | 0 <= k < 6 ensures raw[k] in FenceChars {
        assert raw[k] == "```sql"[k];
      }
      forall k | 6 + |body| <= k < n ensures raw[k] in FenceChars {
        assert raw[k] == '`';
      }
      assert raw[6] == body[0] && raw[5 + |body|] == body[|body| - 1];
    }
    StripUnique(raw[6..6 + |body|], raw, FenceChars);
    assert raw[6..6 + |body|] == body;
    FinalStripIsNoOp(raw);
  }

  /** A reply wrapped in newlines sanitises to what is inside them, when that starts and ends
      with neither whitespace nor a fence character. */
  lemma NewlineWrappedGivesBody(body: string)
    requires body != []
    requires body[0] !in Whitespace && body[0] !in FenceChars
    requires body[|body| - 1] !in Whitespace && body[|body| - 1] !in FenceChars
    ensures Sanitise("\n" + body + "\n") == body
  {
    var raw := "\n" + body + "\n";
    assert raw[0] == '\n' && raw[|raw| - 1] == '\n';
    assert raw[1] == body[0] && raw[|body|] == body[|body| - 1];
    assert StrippedAt(raw, Whitespace, 1, 1 + |body|);
    SanitiseAfterSpace(raw, 1, 1 + |body|);
    assert raw[1..1 + |body|] == body;
  }

  /** A query followed by a run of fence characters loses that run: a trailing lower-case
      s, q or l is removed as if it were part of a fence. */
  lemma TrailingFenceLettersLost(query: string, tail: string)
    requires query != [] && query[0] !in Whitespace && query[0] !in FenceChars
    requires query[|query| - 1] !in FenceChars
    requires tail != [] && forall k :: 0 <= k < |tail| ==> tail[k] in FenceChars
    ensures Sanitise(query + tail) == query
  {
    var raw := query + tail;
    assert raw[0] == query[0];
    assert raw[|raw| - 1] == tail[|tail| - 1];
    StripClean(raw, Whitespace);
    assert StrippedAt(raw, FenceChars, 0, |query|) by {
      forall k | |query| <= k < |raw| ensures raw[k] in FenceChars {
        assert raw[k] == tail[k - |query|];
      }
      assert raw[|query| - 1] == query[|query| - 1];
    }
    StripUnique(raw[0..|query|], raw, FenceChars);
    assert raw[0..|query|] == query;
    FinalStripIsNoOp(raw);
  }

  /** A run of fence characters in front of a query is lost with it: a leading lower-case s,
      q or l is removed as if it were part of a fence. */
  lemma LeadingFenceLettersLost(head: string, query: string)
    requires head != [] && forall k :: 0 <= k < |head| ==> head[k] in FenceChars
    requires query != [] && query[0] !in FenceChars
    requires query[|query| - 1] !in Whitespace && query[|query| - 1] !in FenceChars
    ensures Sanitise(head + query) == query
  {
    var raw := head + query;
    assert raw[0] == head[0];
    assert raw[|raw| - 1] == query[|query| - 1];
    StripClean(raw, Whitespace);
    assert StrippedAt(raw, FenceChars, |head|, |raw|) by {
      forall k | 0 <= k < |head| ensures raw[k] in FenceChars {
        assert raw[k] == head[k];
      }
      assert raw[|head|] == query[0];
    }
    StripUnique(raw[|head|..|raw|], raw, FenceChars);
    assert raw[|head|..|raw|] == query;
    FinalStripIsNoOp(raw);
  }

  /** An unfenced lower-case query "select 1" loses its first letter. */
  lemma LeadingLetterIsLost(query: string)
    requires query == "select 1"
    ensures Sanitise(query) == "elect 1"
  {
    assert query == "s" + "elect 1";
    LeadingFenceLettersLost("s", "elect 1");
  }

  /** The reply "```sql\nSELECT 1\n```" keeps the newlines just inside the fence. */
  lemma FencedReplyKeepsNewlines(raw: string)
    requires raw == "```sql\nSELECT 1\n```"
    ensures Sanitise(raw) == "\nSELECT 1\n"
  {
    var body := "\nSELECT 1\n";
    assert raw == "```sql" + body + "```";
    FencedReplyGivesBody(body);
  }

  /** A second pass removes the newlines the first pass kept. */
  lemma SecondPassTrimsNewlines(once: string)
    requires once == "\nSELECT 1\n"
    ensures Sanitise(once) == "SELECT 1"
  {
    assert once == "\n" + "SELECT 1" + "\n";
    NewlineWrappedGivesBody("SELECT 1");
  }

  /** Sanitising is not idempotent: "```sql\nSELECT 1\n```" becomes "SELECT 1" only on a
      second pass. */
  lemma SanitiseNotIdempotent(raw: string)
    requires raw == "```sql\nSELECT 1\n```"
    ensures Sanitise(Sanitise(raw)) == "SELECT 1"
    ensures Sanitise(Sanitise(raw)) != Sanitise(raw)
  {
    FencedReplyKeepsNewlines(raw);
    SecondPassTrimsNewlines(Sanitise(raw));
  }

  /** The query "SELECT * FROM tbl" loses the trailing l of its table name. */
  lemma TrailingLetterIsLost(query: string)
    requires query == "SELECT * FROM tbl"
    ensures Sanitise(query) == "SELECT * FROM tb"
  {
    assert query == "SELECT * FROM tb" + "l";
    TrailingFenceLettersLost("SELECT * FROM tb", "l");
  }
}
