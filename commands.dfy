/**
 * src/commands-helper.ts: the six-level permission order used by command
 * definitions, the command tokenizer, and the argument formatter.
 */
module CommandsHelper {
  import opened Wrappers
  import opened Strings
  import opened Seqs

  /* ---------------------------------------------------------------------- */
  /* Permission levels                                                       */
  /* ---------------------------------------------------------------------- */

  /** The six levels, lowest first. */
  const CommandLevels: seq<string> := ["none", "read", "triage", "write", "maintain", "admin"]

  /** The frozen `permissionLevels` table; a name outside it reads as
      `undefined` (the names it inherits from `Object.prototype` are not
      modelled). */
  function CommandLevel(p: string): Option<nat>
  {
    if p == "none" then Some(1)
    else if p == "read" then Some(2)
    else if p == "triage" then Some(3)
    else if p == "write" then Some(4)
    else if p == "maintain" then Some(5)
    else if p == "admin" then Some(6)
    else None
  }

  /** `actorHasPermission`: the actor's level is at least the command's. A
      comparison that involves `undefined` is false, so an unknown name on
      either side denies. */
  predicate ActorHasPermission(actorPermission: string, commandPermission: string)
    ensures ActorHasPermission(actorPermission, commandPermission) <==>
            exists i, j :: 0 <= j <= i < |CommandLevels| && CommandLevels[i] == actorPermission
                                                         && CommandLevels[j] == commandPermission
  {
    var a := CommandLevel(actorPermission);
    var c := CommandLevel(commandPermission);
    assert forall k :: 0 <= k < |CommandLevels| ==> CommandLevel(CommandLevels[k]) == Some(k + 1);
    assert a.Some? ==> CommandLevels[a.value - 1] == actorPermission;
    assert c.Some? ==> CommandLevels[c.value - 1] == commandPermission;
    a.Some? && c.Some? && a.value >= c.value
  }

  /** Every known level meets itself. */
  lemma ActorHasPermissionReflexive(p: string)
    requires p in CommandLevels
    ensures ActorHasPermission(p, p)
  {
    var i :| 0 <= i < |CommandLevels| && CommandLevels[i] == p;
    assert CommandLevels[i] == p;
  }

  /** Each level meets the one below it and not the one above it. */
  lemma {:induction false} AdjacentLevelsOrdered(k: nat)
    requires k + 1 < |CommandLevels|
    ensures ActorHasPermission(CommandLevels[k + 1], CommandLevels[k])
    ensures !ActorHasPermission(CommandLevels[k], CommandLevels[k + 1])
  {
    assert CommandLevels[k + 1] == CommandLevels[k + 1] && CommandLevels[k] == CommandLevels[k];
  }

  /** The order is transitive. */
  lemma ActorHasPermissionTransitive(a: string, b: string, c: string)
    requires ActorHasPermission(a, b) && ActorHasPermission(b, c)
    ensures ActorHasPermission(a, c)
  {
    var i, j :| 0 <= j <= i < |CommandLevels| && CommandLevels[i] == a && CommandLevels[j] == b;
    var j', k :| 0 <= k <= j' < |CommandLevels| && CommandLevels[j'] == b && CommandLevels[k] == c;
    assert j == j';
  }

  /* ---------------------------------------------------------------------- */
  /* Tokenizer: TOKENISE_REGEX = /\S+="[^"\\]*(?:\\.[^"\\]*)*"|"[^"\\]*(?:\\.[^"\\]*)*"|\S+/g */
  /* ---------------------------------------------------------------------- */

  /** A match of the regex: `s[start..end]`. */
  datatype Span = Span(start: nat, end: nat)

  /** The end of the run of non-whitespace characters that starts at `i` (`\S+`, greedy). */
  function RunEnd(s: string, i: nat): (j: nat)
    requires i <= |s|
    ensures i <= j <= |s|
    ensures forall k :: i <= k < j ==> !IsSpace(s[k])
    ensures j < |s| ==> IsSpace(s[j])
    decreases |s| - i
  {
    if i == |s| || IsSpace(s[i]) then i else RunEnd(s, i + 1)
  }

  /** The body of a quoted string: `[^"\\]*(?:\\.[^"\\]*)*`, i.e. any sequence of
      characters other than '"' and '\', and of '\' followed by a character
      that is not a line terminator. */
  predicate QuoteBody(b: string)
    decreases |b|
  {
    b == []
    || (b[0] != '"' && b[0] != '\\' && QuoteBody(b[1..]))
    || (|b| >= 2 && b[0] == '\\' && !IsLineTerminator(b[1]) && QuoteBody(b[2..]))
  }

  /** Scans a quoted-string body from `i`; the index of its closing quote, if the
      body is well formed and closed. */
  function ClosingQuote(s: string, i: nat): (r: Option<nat>)
    ensures r.Some? ==> i <= r.value < |s| && s[r.value] == '"'
    decreases |s| - i
  {
    if i >= |s| then None
    else if s[i] == '"' then Some(i)
    else if s[i] == '\\' then
      if i + 1 < |s| && !IsLineTerminator(s[i + 1]) then ClosingQuote(s, i + 2) else None
    else ClosingQuote(s, i + 1)
  }

  /** The scanner agrees with the regex: it stops exactly at a quote that ends a
      well-formed body, so an escaped quote `\"` never closes the string. */
  lemma {:induction false} ClosingQuoteIsRegexMatch(s: string, i: nat, q: nat)
    requires i <= q < |s|
    ensures ClosingQuote(s, i) == Some(q) <==> s[q] == '"' && QuoteBody(s[i..q])
    decreases q - i
  {
    if i < q {
      var b := s[i..q];
      assert b[1..] == s[i + 1..q];
      if s[i] == '\\' {
        if i + 1 < q {
          assert b[2..] == s[i + 2..q];
          if !IsLineTerminator(s[i + 1]) {
            ClosingQuoteIsRegexMatch(s, i + 2, q);
          }
        } else {
          assert !QuoteBody(b);
          if i + 1 < |s| && !IsLineTerminator(s[i + 1]) {
            assert ClosingQuote(s, i + 2).Some? ==> ClosingQuote(s, i + 2).value >= i + 2;
          }
        }
      } else if s[i] != '"' {
        ClosingQuoteIsRegexMatch(s, i + 1, q);
      }
    }
  }

  /** Alternative 1, `\S+="…"`: the key lengths `k`, `k - 1`, …, 1 are tried in
      turn, as the greedy `\S+` backtracks. The end of the match, if any. */
  function KeyedQuoteEnd(s: string, p: nat, k: nat): (r: Option<nat>)
    ensures r.Some? ==> p + 2 < r.value <= |s|
    decreases k
  {
    if k == 0 then None
    else if p + k + 1 < |s| && s[p + k] == '=' && s[p + k + 1] == '"' && ClosingQuote(s, p + k + 2).Some? then
      Some(ClosingQuote(s, p + k + 2).value + 1)
    else KeyedQuoteEnd(s, p, k - 1)
  }

  /** The match at a non-whitespace position `p`: the three alternatives in order. */
  function MatchAt(s: string, p: nat): (sp: Span)
    requires p < |s| && !IsSpace(s[p])
    ensures sp.start == p < sp.end <= |s|
  {
    var run := RunEnd(s, p);
    match KeyedQuoteEnd(s, p, run - p)
    case Some(e) => Span(p, e)
    case None =>
      if s[p] == '"' && ClosingQuote(s, p + 1).Some? then Span(p, ClosingQuote(s, p + 1).value + 1)
      else Span(p, run)
  }

  /** `TOKENISE_REGEX.exec(s)` with `lastIndex == from`: no alternative matches
      at whitespace and `\S+` matches at any other character, so the match is
      the one at the first non-whitespace position. */
  function NextMatch(s: string, from: nat): (r: Option<Span>)
    requires from <= |s|
    ensures r.Some? ==> from <= r.value.start < r.value.end <= |s|
    ensures r.Some? ==> forall k :: from <= k < r.value.start ==> IsSpace(s[k])
    ensures r.None? ==> forall k :: from <= k < |s| ==> IsSpace(s[k])
  {
    var p := SkipSpaces(s, from);
    if p == |s| then None else Some(MatchAt(s, p))
  }

  /** All the matches from `from` on, in order. */
  function TokenSpans(s: string, from: nat): (r: seq<Span>)
    requires from <= |s|
    ensures forall k :: 0 <= k < |r| ==> from <= r[k].start < r[k].end <= |s|
    ensures forall k :: 0 <= k < |r| - 1 ==> r[k].end <= r[k + 1].start
    decreases |s| - from
  {
    match NextMatch(s, from)
    case None => []
    case Some(sp) => [sp] + TokenSpans(s, sp.end)
  }

  /** Every non-whitespace character at or after `from` lies inside a match, so
      the characters between and around the tokens are all whitespace. */
  lemma {:induction false} TokenSpansCover(s: string, from: nat, i: nat)
    requires from <= i < |s| && !IsSpace(s[i])
    ensures exists k :: 0 <= k < |TokenSpans(s, from)| && TokenSpans(s, from)[k].start <= i < TokenSpans(s, from)[k].end
    decreases |s| - from
  {
    var sp := NextMatch(s, from).value;
    var rest := TokenSpans(s, sp.end);
    var r := TokenSpans(s, from);
    assert r == [sp] + rest;
    if i < sp.end {
      assert r[0].start <= i < r[0].end;
    } else {
      TokenSpansCover(s, sp.end, i);
      var k :| 0 <= k < |rest| && rest[k].start <= i < rest[k].end;
      assert r[k + 1] == rest[k];
    }
  }

  predicate SpansInBounds(s: string, spans: seq<Span>)
  {
    forall k :: 0 <= k < |spans| ==> spans[k].start <= spans[k].end <= |s|
  }

  /** The matched texts of the spans. */
  function Texts(s: string, spans: seq<Span>): (r: seq<string>)
    requires SpansInBounds(s, spans)
    ensures |r| == |spans|
    ensures forall k :: 0 <= k < |r| ==> r[k] == s[spans[k].start..spans[k].end]
    decreases |spans|
  {
    if spans == [] then [] else [s[spans[0].start..spans[0].end]] + Texts(s, spans[1..])
  }

  /** The tokens of `s`: every match of the regex, in order. */
  function Tokens(s: string): (r: seq<string>)
    ensures forall k :: 0 <= k < |r| ==> |r[k]| > 0
  {
    Texts(s, TokenSpans(s, 0))
  }

  lemma TextsCons(s: string, sp: Span, rest: seq<Span>)
    requires sp.start <= sp.end <= |s| && SpansInBounds(s, rest)
    ensures SpansInBounds(s, [sp] + rest)
    ensures Texts(s, [sp] + rest) == [s[sp.start..sp.end]] + Texts(s, rest)
  {
    assert ([sp] + rest)[1..] == rest;
  }

  /** One call of `exec`: the match at `from` is the first token from there on. */
  lemma TokenStep(s: string, from: nat)
    requires from <= |s| && NextMatch(s, from).Some?
    ensures var sp := NextMatch(s, from).value;
            Texts(s, TokenSpans(s, from)) == [s[sp.start..sp.end]] + Texts(s, TokenSpans(s, sp.end))
  {
    var sp := NextMatch(s, from).value;
    var rest := TokenSpans(s, sp.end);
    assert TokenSpans(s, from) == [sp] + rest;
    TextsCons(s, sp, rest);
  }

  /** One loop step of `tokeniseCommand`: pushing the match at `from` keeps
      the pushed tokens followed by the remaining ones equal to all tokens. */
  lemma TokenPush(s: string, from: nat, output: seq<string>)
    requires from <= |s| && NextMatch(s, from).Some?
    requires output + Texts(s, TokenSpans(s, from)) == Tokens(s)
    ensures var sp := NextMatch(s, from).value;
            (output + [s[sp.start..sp.end]]) + Texts(s, TokenSpans(s, sp.end)) == Tokens(s)
  {
    var sp := NextMatch(s, from).value;
    TokenStep(s, from);
    AppendAssoc(output, [s[sp.start..sp.end]], Texts(s, TokenSpans(s, sp.end)));
  }

  /** `tokeniseCommand`: calls `exec` on the global regex until it returns null,
      pushing each match. `lastIndex` starts at 0 (the previous call ran to the
      end, which resets it). */
  method TokeniseCommand(command: string) returns (output: seq<string>)
    ensures output == Tokens(command)
  {
    output := [];
    var lastIndex := 0;
    var m := NextMatch(command, lastIndex);
    while m.Some?
      invariant lastIndex <= |command|
      invariant m == NextMatch(command, lastIndex)
      invariant output + Texts(command, TokenSpans(command, lastIndex)) == Tokens(command)
      decreases |command| - lastIndex
    {
      TokenPush(command, lastIndex, output);
      output := output + [command[m.value.start..m.value.end]];
      lastIndex := m.value.end;
      m := NextMatch(command, lastIndex);
    }
    assert TokenSpans(command, lastIndex) == [];
  }

  /** An empty or all-whitespace string has no tokens. */
  lemma BlankHasNoTokens(s: string)
    requires forall i :: 0 <= i < |s| ==> IsSpace(s[i])
    ensures Tokens(s) == []
  {
    assert NextMatch(s, 0).None?;
  }

  /** A string with a non-whitespace character has at least one token. */
  lemma NonBlankHasToken(s: string, i: nat)
    requires i < |s| && !IsSpace(s[i])
    ensures |Tokens(s)| > 0
  {
    assert NextMatch(s, 0).Some?;
  }

  /** No later key (`="`) in `(p, p + k]`: alternative 1 fails for all key lengths up to `k`. */
  lemma {:induction false} NoKeyedQuote(s: string, p: nat, k: nat)
    requires forall j :: p < j <= p + k && j + 1 < |s| ==> s[j] != '=' || s[j + 1] != '"'
    ensures KeyedQuoteEnd(s, p, k) == None
    decreases k
  {
    if k > 0 {
      NoKeyedQuote(s, p, k - 1);
    }
  }

  /** A maximal run of non-whitespace characters. */
  predicate IsMaximalRun(s: string, sp: Span)
  {
    sp.start < sp.end <= |s|
    && (sp.start == 0 || IsSpace(s[sp.start - 1]))
    && (sp.end == |s| || IsSpace(s[sp.end]))
    && forall i :: sp.start <= i < sp.end ==> !IsSpace(s[i])
  }

  /** Without '"', the match at a position that follows whitespace (or the
      start) is the whole run of non-whitespace characters there. */
  lemma UnquotedMatchIsRun(s: string, from: nat)
    requires from <= |s| && '"' !in s
    requires from == 0 || from == |s| || IsSpace(s[from - 1]) || IsSpace(s[from])
    requires NextMatch(s, from).Some?
    ensures IsMaximalRun(s, NextMatch(s, from).value)
  {
    var p := SkipSpaces(s, from);
    NoKeyedQuote(s, p, RunEnd(s, p) - p);
    assert s[p] != '"';
    assert NextMatch(s, from).value == Span(p, RunEnd(s, p));
    if p > from {
      assert IsSpace(s[p - 1]);
    }
  }

  lemma {:induction false} UnquotedSpansAreRuns(s: string, from: nat)
    requires from <= |s| && '"' !in s
    requires from == 0 || from == |s| || IsSpace(s[from - 1]) || IsSpace(s[from])
    ensures forall k :: 0 <= k < |TokenSpans(s, from)| ==> IsMaximalRun(s, TokenSpans(s, from)[k])
    decreases |s| - from
  {
    match NextMatch(s, from)
    case None =>
    case Some(sp) =>
      UnquotedMatchIsRun(s, from);
      UnquotedSpansAreRuns(s, sp.end);
      var r := TokenSpans(s, from);
      assert r == [sp] + TokenSpans(s, sp.end);
  }

  /** Without '"' in the input, the tokens are exactly the maximal runs of
      non-whitespace characters, left to right: every span is such a run and
      every non-whitespace character lies in one of them. */
  lemma UnquotedTokensAreWords(s: string)
    requires '"' !in s
    ensures var spans := TokenSpans(s, 0);
            (forall k :: 0 <= k < |spans| ==> IsMaximalRun(s, spans[k]))
            && (forall i :: 0 <= i < |s| && !IsSpace(s[i]) ==>
                  exists k :: 0 <= k < |spans| && spans[k].start <= i < spans[k].end)
  {
    UnquotedSpansAreRuns(s, 0);
    forall i | 0 <= i < |s| && !IsSpace(s[i])
      ensures exists k :: 0 <= k < |TokenSpans(s, 0)| && TokenSpans(s, 0)[k].start <= i < TokenSpans(s, 0)[k].end
    {
      TokenSpansCover(s, 0, i);
    }
  }

  /** The greedy key search stops at the largest key length that works. */
  lemma {:induction false} KeyedQuoteLargest(s: string, p: nat, big: nat, k: nat)
    requires 0 < k <= big
    requires p + k + 1 < |s| && s[p + k] == '=' && s[p + k + 1] == '"' && ClosingQuote(s, p + k + 2).Some?
    requires forall j :: p + k < j <= p + big && j < |s| ==> s[j] != '='
    ensures KeyedQuoteEnd(s, p, big) == Some(ClosingQuote(s, p + k + 2).value + 1)
    decreases big
  {
    if big > k {
      KeyedQuoteLargest(s, p, big - 1, k);
    }
  }

  /** A closed quoted region `"…"` followed by whitespace or the end, with no '='
      in it, is one token that keeps its quotes, whatever whitespace or escaped
      quotes it contains. */
  lemma QuotedRegionIsOneToken(s: string, p: nat, q: nat)
    requires p < |s| && s[p] == '"' && ClosingQuote(s, p + 1) == Some(q)
    requires q + 1 == |s| || IsSpace(s[q + 1])
    requires forall i :: p <= i <= q ==> s[i] != '='
    ensures MatchAt(s, p) == Span(p, q + 1)
  {
    NoKeyBeforeSpace(s, p, q);
    QuotedMatch(s, p);
  }

  /** Without '=' up to a whitespace character or the end, alternative 1 fails. */
  lemma NoKeyBeforeSpace(s: string, p: nat, q: nat)
    requires p <= q < |s|
    requires q + 1 == |s| || IsSpace(s[q + 1])
    requires forall i :: p <= i <= q ==> s[i] != '='
    ensures KeyedQuoteEnd(s, p, RunEnd(s, p) - p) == None
  {
    var run := RunEnd(s, p);
    RunEndBefore(s, p, q + 1);
    forall j | p < j <= run && j + 1 < |s|
      ensures s[j] != '='
    {
      if j == q + 1 {
        SpaceIsNotEquals(s[q + 1]);
      }
    }
    NoKeyedQuote(s, p, run - p);
  }

  lemma SpaceIsNotEquals(c: char)
    requires IsSpace(c)
    ensures c != '='
  {
  }

  /** The run from `i` ends no later than a whitespace character or the end at `e`. */
  lemma RunEndBefore(s: string, i: nat, e: nat)
    requires i <= e <= |s| && (e == |s| || IsSpace(s[e]))
    ensures RunEnd(s, i) <= e
  {
  }

  /** Without a keyed match, a closed quote at `p` is the match. */
  lemma QuotedMatch(s: string, p: nat)
    requires p < |s| && s[p] == '"' && ClosingQuote(s, p + 1).Some?
    requires KeyedQuoteEnd(s, p, RunEnd(s, p) - p) == None
    ensures MatchAt(s, p) == Span(p, ClosingQuote(s, p + 1).value + 1)
  {
  }

  /** A closed quoted region with a `key=` prefix is one token too. */
  lemma KeyedRegionIsOneToken(s: string, p: nat, k: nat, q: nat)
    requires 0 < k && p + k + 1 < |s| && s[p + k] == '=' && s[p + k + 1] == '"'
    requires forall i :: p <= i < p + k ==> !IsSpace(s[i])
    requires ClosingQuote(s, p + k + 2) == Some(q)
    requires q + 1 == |s| || IsSpace(s[q + 1])
    requires forall i :: p + k < i <= q ==> s[i] != '='
    ensures MatchAt(s, p) == Span(p, q + 1)
  {
    var run := RunEnd(s, p);
    assert run <= q + 1;
    assert !IsSpace(s[p + k]) && !IsSpace(s[p + k + 1]);
    assert run >= p + k + 2;
    KeyedQuoteLargest(s, p, run - p, k);
  }

  /** The scan from `i` closes at the latest at a '"' that ends a run of
      non-whitespace characters from `i` and is not preceded by '\'. */
  lemma {:induction false} QuoteInRunCloses(s: string, i: nat, j: nat)
    requires i <= j < |s| && s[j] == '"'
    requires forall m :: i <= m < j ==> !IsSpace(s[m])
    requires i < j ==> s[j - 1] != '\\'
    ensures ClosingQuote(s, i).Some?
    decreases j - i
  {
    if i < j && s[i] != '"' {
      if s[i] == '\\' {
        assert !IsSpace(s[i + 1]);
        if i + 2 <= j {
          QuoteInRunCloses(s, i + 2, j);
        }
      } else {
        QuoteInRunCloses(s, i + 1, j);
      }
    }
  }

  /** After an unclosed quote at `p`, no key length within the run gives a
      keyed match: its `="` would itself close the quote. */
  lemma {:induction false} UnclosedQuoteHasNoKey(s: string, p: nat, k: nat)
    requires p < |s| && s[p] == '"' && ClosingQuote(s, p + 1).None?
    requires p + k <= RunEnd(s, p)
    ensures KeyedQuoteEnd(s, p, k) == None
    decreases k
  {
    if k > 0 {
      if p + k + 1 < |s| && s[p + k] == '=' && s[p + k + 1] == '"' {
        QuoteInRunCloses(s, p + 1, p + k + 1);
      }
      UnclosedQuoteHasNoKey(s, p, k - 1);
    }
  }

  /** An unclosed quote falls back to the plain `\S+` match. */
  lemma UnclosedQuoteSplitsAtWhitespace(s: string, p: nat)
    requires p < |s| && s[p] == '"' && ClosingQuote(s, p + 1).None?
    ensures MatchAt(s, p) == Span(p, RunEnd(s, p))
  {
    UnclosedQuoteHasNoKey(s, p, RunEnd(s, p) - p);
  }

  /** The conditions of `QuotedRegionIsOneToken` are needed: in `"k=" "v"` the
      region `"k="` is closed and followed by a space, yet alternative 1 reads
      `"k` as a key and matches `"k=" "`. */
  lemma EqualsInRegionStartsKey()
    ensures var s := "\"k=\" \"v\"";
            ClosingQuote(s, 1) == Some(3) && IsSpace(s[4]) && MatchAt(s, 0) == Span(0, 6)
  {
    var s := "\"k=\" \"v\"";
    assert RunEnd(s, 3) == 4;
    assert RunEnd(s, 0) == 4;
    assert ClosingQuote(s, 4) == Some(5);
    assert KeyedQuoteEnd(s, 0, 2) == Some(6);
    assert KeyedQuoteEnd(s, 0, 4) == KeyedQuoteEnd(s, 0, 3) == KeyedQuoteEnd(s, 0, 2);
  }

  /* ---------------------------------------------------------------------- */
  /* Formatter                                                               */
  /* ---------------------------------------------------------------------- */

  /** The text that `new RegExp(`/\\$${i}/g`)` matches: the regex source is
      `/\$i/g`, so it matches the literal characters `/$i/g` and has no flags. */
  function Placeholder(i: nat): string
  {
    "/$" + NatToString(i) + "/g"
  }

  /** The format after substituting indices 1..n, each replacing the first
      occurrence of its placeholder in the string produced so far. */
  function Formatted(format: string, args: seq<string>, n: nat): string
    requires n <= |args|
    decreases n
  {
    if n == 0 then format
    else ReplaceFirst(Formatted(format, args, n - 1), Placeholder(n), args[n - 1])
  }

  /** `formatWithArguments(format, args)`. */
  method FormatWithArguments(format: string, args: seq<string>) returns (r: string)
    ensures r == Formatted(format, args, |args|)
  {
    r := format;
    for index := 0 to |args|
      invariant r == Formatted(format, args, index)
    {
      r := ReplaceFirst(r, Placeholder(index + 1), args[index]);
    }
  }

  /** Every placeholder starts with '/'. */
  lemma NoSlashNoPlaceholder(format: string, i: nat)
    requires '/' !in format
    ensures forall j: nat :: !OccursAt(format, Placeholder(i), j)
  {
    var pat := Placeholder(i);
    assert pat[0] == '/';
    forall j: nat ensures !OccursAt(format, pat, j) {
      if j + |pat| <= |format| {
        assert format[j..j + |pat|][0] == format[j];
      }
    }
  }

  /** A format that holds no placeholder of index 1..n is left as it is: higher
      indices are never substituted. */
  lemma {:induction false} FormatIgnoresOtherPlaceholders(format: string, args: seq<string>, n: nat)
    requires n <= |args|
    requires forall i: nat, j: nat :: 1 <= i <= n ==> !OccursAt(format, Placeholder(i), j)
    ensures Formatted(format, args, n) == format
    decreases n
  {
    if n > 0 {
      FormatIgnoresOtherPlaceholders(format, args, n - 1);
      ReplaceFirstWithoutOccurrence(format, Placeholder(n), args[n - 1]);
    }
  }

  /** A format without '/' (such as one that uses a bare `$1`) comes back
      unchanged whatever the arguments. */
  lemma FormatWithoutSlashUnchanged(format: string, args: seq<string>, n: nat)
    requires n <= |args| && '/' !in format
    ensures Formatted(format, args, n) == format
  {
    forall i: nat | 1 <= i <= n ensures forall j: nat :: !OccursAt(format, Placeholder(i), j) {
      NoSlashNoPlaceholder(format, i);
    }
    FormatIgnoresOtherPlaceholders(format, args, n);
  }

  /** `formatWithArguments('Label: $1', ['bug'])` returns 'Label: $1'. */
  lemma BarePlaceholderStaysVerbatim()
    ensures Formatted("Label: $1", ["bug"], 1) == "Label: $1"
  {
    FormatWithoutSlashUnchanged("Label: $1", ["bug"], 1);
  }
}
