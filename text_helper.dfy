/**
 * Greedy word wrap for the chat box (src/TextHelper.hpp). The width of a
 * candidate line, `MeasureTextEx(font, line, size, spacing).x`, is a function
 * parameter: the font, its size and the spacing are folded into it.
 */
module TextHelper {
  import opened CStrings

  /** How wide a line is drawn. */
  type Width = string -> real

  /** The characters that end a word. */
  predicate IsSeparator(c: char)
  {
    c == ' ' || c == '\n' || c == '\t'
  }

  predicate NoSeparator(s: string)
  {
    forall i :: 0 <= i < |s| ==> !IsSeparator(s[i])
  }

  /** A line as `WrapText` builds it: words joined by single spaces, so no line break or tab. */
  predicate OneLine(s: string)
  {
    forall i :: 0 <= i < |s| ==> s[i] != '\n' && s[i] != '\t'
  }

  /** Every line is one line (kept recursive, so that it unfolds one line at a time). */
  predicate AllOneLine(lines: seq<string>)
  {
    lines == [] || (AllOneLine(lines[..|lines| - 1]) && OneLine(lines[|lines| - 1]))
  }

  /** The first `n` characters of `s` hold no newline. */
  predicate NoBreakBefore(s: string, n: nat)
    requires n <= |s|
  {
    n == 0 || (NoBreakBefore(s, n - 1) && s[n - 1] != '\n')
  }

  /** No line is empty. */
  predicate NoEmptyLine(lines: seq<string>)
  {
    lines == [] || (NoEmptyLine(lines[..|lines| - 1]) && |lines[|lines| - 1]| > 0)
  }

  /** `NoBreakBefore` says what its name says. */
  lemma {:induction false} NoBreakBeforeMeans(s: string, n: nat)
    requires n <= |s|
    ensures NoBreakBefore(s, n) <==> forall i :: 0 <= i < n ==> s[i] != '\n'
  {
    if n > 0 {
      NoBreakBeforeMeans(s, n - 1);
    }
  }

  /** The lines meet both predicates exactly when each line does. */
  lemma {:induction false} LinesMean(lines: seq<string>)
    ensures AllOneLine(lines) <==> forall j :: 0 <= j < |lines| ==> OneLine(lines[j])
    ensures NoEmptyLine(lines) <==> forall j :: 0 <= j < |lines| ==> |lines[j]| > 0
  {
    if lines != [] {
      var init := lines[..|lines| - 1];
      LinesMean(init);
      assert forall j :: 0 <= j < |init| ==> init[j] == lines[j];
    }
  }

  /**
   * A line holding a space was measured when its last word was joined, so it
   * is no wider than `maxWidth`; a line of one word may be wider, since a word
   * is never split.
   */
  predicate Fits(line: string, maxWidth: real, width: Width)
  {
    ' ' in line ==> width(line) <= maxWidth
  }

  /** Every line fits (recursive, like `AllOneLine`). */
  predicate AllFit(lines: seq<string>, maxWidth: real, width: Width)
  {
    lines == [] || (AllFit(lines[..|lines| - 1], maxWidth, width) && Fits(lines[|lines| - 1], maxWidth, width))
  }

  /** `AllFit` says what its name says. */
  lemma {:induction false} AllFitMeans(lines: seq<string>, maxWidth: real, width: Width)
    ensures AllFit(lines, maxWidth, width) <==> forall j :: 0 <= j < |lines| ==> Fits(lines[j], maxWidth, width)
  {
    if lines != [] {
      var init := lines[..|lines| - 1];
      AllFitMeans(init, maxWidth, width);
      assert forall j :: 0 <= j < |init| ==> init[j] == lines[j];
    }
  }

  /** The newlines among the first `n` characters of `s`. */
  function Newlines(s: string, n: nat): nat
    requires n <= |s|
  {
    if n == 0 then 0 else Newlines(s, n - 1) + (if s[n - 1] == '\n' then 1 else 0)
  }

  /** The empty lines. */
  function EmptyLines(lines: seq<string>): nat
  {
    if lines == [] then 0 else EmptyLines(lines[..|lines| - 1]) + (if lines[|lines| - 1] == "" then 1 else 0)
  }

  /** The first `n` characters of `s` end in a newline followed by nothing but spaces and tabs. */
  predicate EndsBlank(s: string, n: nat)
    requires n <= |s|
  {
    n > 0 && (s[n - 1] == '\n' || ((s[n - 1] == ' ' || s[n - 1] == '\t') && EndsBlank(s, n - 1)))
  }

  /** `EndsBlank` says what its name says: some newline is followed only by spaces and tabs. */
  lemma {:induction false} EndsBlankMeans(s: string, n: nat)
    requires n <= |s|
    ensures EndsBlank(s, n) <==>
              exists p :: 0 <= p < n && s[p] == '\n' && forall q :: p < q < n ==> s[q] == ' ' || s[q] == '\t'
  {
    if n > 0 {
      EndsBlankMeans(s, n - 1);
      if s[n - 1] != '\n' && exists p :: 0 <= p < n && s[p] == '\n' && forall q :: p < q < n ==> s[q] == ' ' || s[q] == '\t' {
        var p :| 0 <= p < n && s[p] == '\n' && forall q :: p < q < n ==> s[q] == ' ' || s[q] == '\t';
        assert p < n - 1;
      }
    }
  }

  /** The state of a left-to-right scan: the words completed so far, and the word being read. */
  datatype Scanned = Scanned(done: seq<string>, pending: string)

  /** The pending word as a list: empty words are not words. */
  function Flush(w: string): seq<string>
  {
    if |w| == 0 then [] else [w]
  }

  /** One character of the scan: a non-separator extends the pending word; a separator completes it. */
  function Step(r: Scanned, c: char): Scanned
  {
    if !IsSeparator(c) then Scanned(r.done, r.pending + [c])
    else Scanned(r.done + Flush(r.pending), "")
  }

  /** Scanning the first `n` characters of `s`. */
  function Scan(s: string, n: nat): Scanned
    requires n <= |s|
  {
    if n == 0 then Scanned([], "") else Step(Scan(s, n - 1), s[n - 1])
  }

  /** The words of `s`: its maximal runs of characters other than space, newline and tab, in order. */
  function Words(s: string): seq<string>
  {
    var r := Scan(s, |s|);
    r.done + Flush(r.pending)
  }

  /** The words of the lines, in order. */
  function Flat(lines: seq<string>): seq<string>
  {
    if lines == [] then [] else Flat(lines[..|lines| - 1]) + Words(lines[|lines| - 1])
  }

  /** The pending word holds no separator. */
  lemma {:induction false} ScanPending(s: string, n: nat)
    requires n <= |s|
    ensures NoSeparator(Scan(s, n).pending)
  {
    if n > 0 {
      ScanPending(s, n - 1);
    }
  }

  /** A word is one line, and so is a line joined to a word by a space. */
  lemma OneLineJoin(line: string, w: string)
    requires OneLine(line) && NoSeparator(w)
    ensures OneLine(w) && OneLine(line + " " + w)
  {
  }

  /** The scan of a prefix does not look past it. */
  lemma {:induction false} ScanPrefix(s: string, t: string, n: nat)
    requires n <= |s| && n <= |t| && forall i :: 0 <= i < n ==> s[i] == t[i]
    ensures Scan(s, n) == Scan(t, n)
  {
    if n > 0 {
      ScanPrefix(s, t, n - 1);
    }
  }

  /** Scanning on through `k` characters that are no separators only extends the pending word. */
  lemma {:induction false} ScanRun(a: string, b: string, k: nat)
    requires k <= |b| && NoSeparator(b)
    ensures Scan(a + b, |a| + k) == Scanned(Scan(a, |a|).done, Scan(a, |a|).pending + b[..k])
  {
    if k == 0 {
      ScanPrefix(a + b, a, |a|);
    } else {
      ScanRun(a, b, k - 1);
      assert (a + b)[|a| + k - 1] == b[k - 1];
      assert b[..k - 1] + [b[k - 1]] == b[..k];
    }
  }

  /** A single non-empty run is one word, and an empty one none. */
  lemma WordsOfWord(w: string)
    requires NoSeparator(w)
    ensures Words(w) == Flush(w)
  {
    ScanRun("", w, |w|);
    assert "" + w == w && w[..|w|] == w;
  }

  /** Joining a word to a line with a space adds exactly that word to the line's words. */
  lemma WordsJoin(line: string, w: string)
    requires w != "" && NoSeparator(w)
    ensures Words(line + " " + w) == Words(line) + [w]
  {
    var a := line + " ";
    ScanPrefix(a, line, |line|);
    assert Scan(a, |a|) == Scanned(Words(line), "");
    ScanRun(a, w, |w|);
    assert w[..|w|] == w;
    assert "" + w == w;
    var t := a + w;
    assert Scan(t, |t|) == Scanned(Words(line), w);
    assert Flush(w) == [w];
  }

  /** Emitting a line adds its words, keeps every line one line, and adds no empty line if it is not empty. */
  lemma AppendLine(lines: seq<string>, line: string)
    requires AllOneLine(lines) && OneLine(line)
    ensures Flat(lines + [line]) == Flat(lines) + Words(line)
    ensures AllOneLine(lines + [line])
    ensures NoEmptyLine(lines) && |line| > 0 ==> NoEmptyLine(lines + [line])
  {
    assert (lines + [line])[..|lines|] == lines;
  }

  /** The lines emitted so far and the line being filled. */
  datatype Wrapping = Wrapping(lines: seq<string>, current: string)

  /**
   * What `TryAddWord` leaves: an empty word changes nothing; otherwise the word
   * becomes the line if the line is empty, is joined to it with a space if the
   * result is no wider than `maxWidth`, and else the line is emitted and the
   * word starts the next one. Only a non-empty line is ever emitted, a word
   * leaves the line non-empty, and a line holding a space still fits.
   */
  function AddWord(w: Wrapping, word: string, maxWidth: real, width: Width): (r: Wrapping)
    ensures word == "" ==> r == w
    ensures word != "" ==> r.current != ""
    ensures r.lines == w.lines || (w.current != "" && r.lines == w.lines + [w.current])
    ensures NoSeparator(word) && Fits(w.current, maxWidth, width) ==> Fits(r.current, maxWidth, width)
  {
    if word == "" then w
    else if w.current == "" then Wrapping(w.lines, word)
    else if width(w.current + " " + word) > maxWidth then Wrapping(w.lines + [w.current], word)
    else Wrapping(w.lines, w.current + " " + word)
  }

  /** Emitting a line keeps the lines fitting if it fits, and adds an empty line only if it is empty. */
  lemma EmitLine(lines: seq<string>, line: string, maxWidth: real, width: Width)
    ensures AllFit(lines + [line], maxWidth, width) <==> AllFit(lines, maxWidth, width) && Fits(line, maxWidth, width)
    ensures EmptyLines(lines + [line]) == EmptyLines(lines) + (if line == "" then 1 else 0)
  {
    assert (lines + [line])[..|lines|] == lines;
  }

  /** Offering a word keeps the emitted lines fitting, never removes one, and emits no empty line. */
  lemma AddWordKeeps(w: Wrapping, word: string, maxWidth: real, width: Width)
    ensures var r := AddWord(w, word, maxWidth, width);
            && (AllFit(w.lines, maxWidth, width) && Fits(w.current, maxWidth, width) ==> AllFit(r.lines, maxWidth, width))
            && |r.lines| >= |w.lines|
            && EmptyLines(r.lines) == EmptyLines(w.lines)
  {
    var r := AddWord(w, word, maxWidth, width);
    if r.lines != w.lines {
      EmitLine(w.lines, w.current, maxWidth, width);
    }
  }

  /**
   * `TryAddWord`: an empty word changes nothing; otherwise the word becomes the
   * line if the line is empty, is joined to it with a space if the result is
   * no wider than `maxWidth`, and else the line is emitted and the word starts
   * the next one. The word is never split, and the words of the emitted lines
   * and the current line grow by exactly that word.
   */
  method TryAddWord(current: string, word: string, maxWidth: real, width: Width, lines: seq<string>)
    returns (current': string, word': string, lines': seq<string>)
    requires NoSeparator(word) && OneLine(current) && AllOneLine(lines)
    ensures word == "" ==> current' == current && word' == word && lines' == lines
    ensures word != "" ==> word' == ""
    ensures word != "" && current != "" && width(current + " " + word) > maxWidth ==>
              lines' == lines + [current] && current' == word
    ensures word != "" && (current == "" || width(current + " " + word) <= maxWidth) ==>
              lines' == lines && Words(current') == Words(current) + [word]
    ensures Flat(lines') + Words(current') == Flat(lines) + Words(current) + Flush(word)
    ensures Wrapping(lines', current') == AddWord(Wrapping(lines, current), word, maxWidth, width)
    ensures OneLine(current') && AllOneLine(lines')
    ensures NoEmptyLine(lines) ==> NoEmptyLine(lines')
  {
    current', word', lines' := current, word, lines;
    if word == "" {
      return;
    }
    WordsOfWord(word);
    OneLineJoin(current, word);
    if current == "" {
      assert Words(current) == [] by {
        WordsOfWord(current);
      }
      current' := word;
    } else {
      var test := current + " " + word;
      WordsJoin(current, word);
      if width(test) > maxWidth {
        AppendLine(lines, current);
        lines' := lines + [current];
        current' := word;
      } else {
        current' := test;
      }
    }
    word' := "";
  }

  /**
   * One character of the `WrapText` loop: a word character extends the word;
   * a separator offers the word to the line (`AddWord`), and a newline then
   * also emits the line, even an empty one, and clears it.
   */
  function Fed(c: char, w: Wrapping, word: string, maxWidth: real, width: Width): (Wrapping, string)
  {
    if !IsSeparator(c) then (w, word + [c])
    else
      var a := AddWord(w, word, maxWidth, width);
      if c == '\n' then (Wrapping(a.lines + [a.current], ""), "") else (a, "")
  }

  /** The state of the `WrapText` loop after the first `n` characters of `s`: `Fed` folded over them from nothing. */
  function FedAll(s: string, n: nat, maxWidth: real, width: Width): (Wrapping, string)
    requires n <= |s|
  {
    if n == 0 then (Wrapping([], ""), "")
    else
      var r := FedAll(s, n - 1, maxWidth, width);
      Fed(s[n - 1], r.0, r.1, maxWidth, width)
  }

  /** Folding `Fed` over any prefix of a text reaches a state that keeps `Progress`. */
  lemma {:induction false} FedAllProgress(s: string, n: nat, maxWidth: real, width: Width)
    requires n <= |s|
    ensures var r := FedAll(s, n, maxWidth, width);
            Progress(s, n, r.0, r.1, maxWidth, width)
  {
    if n == 0 {
      WordsOfWord("");
    } else {
      FedAllProgress(s, n - 1, maxWidth, width);
      var r := FedAll(s, n - 1, maxWidth, width);
      StepProgress(s, n - 1, r.0, r.1, maxWidth, width);
    }
  }

  /** Offering a word adds exactly it to the words held, keeps every line one line, and emits no empty line. */
  lemma AddWordScans(w: Wrapping, word: string, maxWidth: real, width: Width)
    requires NoSeparator(word) && OneLine(w.current) && AllOneLine(w.lines)
    ensures var r := AddWord(w, word, maxWidth, width);
            && Flat(r.lines) + Words(r.current) == Flat(w.lines) + Words(w.current) + Flush(word)
            && OneLine(r.current) && AllOneLine(r.lines)
            && (NoEmptyLine(w.lines) ==> NoEmptyLine(r.lines))
  {
    if word != "" {
      WordsOfWord(word);
      OneLineJoin(w.current, word);
      if w.current == "" {
        WordsOfWord(w.current);
      } else {
        WordsJoin(w.current, word);
        AppendLine(w.lines, w.current);
      }
    }
  }

  /** A step of the loop moves the emitted and pending words exactly as one step of the word scan. */
  lemma FedScans(c: char, w: Wrapping, word: string, maxWidth: real, width: Width)
    requires NoSeparator(word) && OneLine(w.current) && AllOneLine(w.lines)
    ensures var r := Fed(c, w, word, maxWidth, width);
            && Scanned(Flat(r.0.lines) + Words(r.0.current), r.1) == Step(Scanned(Flat(w.lines) + Words(w.current), word), c)
            && NoSeparator(r.1) && OneLine(r.0.current) && AllOneLine(r.0.lines)
            && (NoEmptyLine(w.lines) && c != '\n' ==> NoEmptyLine(r.0.lines))
  {
    if IsSeparator(c) {
      AddWordScans(w, word, maxWidth, width);
      var a := AddWord(w, word, maxWidth, width);
      if c == '\n' {
        AppendLine(a.lines, a.current);
        WordsOfWord("");
        assert Flat(a.lines + [a.current]) + Words("") == Flat(a.lines) + Words(a.current);
      }
    }
  }

  /**
   * A step of the loop keeps the lines fitting; a newline adds at least one
   * line and at most one empty line, any other character neither; a word
   * character leaves a word pending; and only a newline empties the line.
   */
  lemma FedKeeps(c: char, w: Wrapping, word: string, maxWidth: real, width: Width)
    requires NoSeparator(word)
    ensures var r := Fed(c, w, word, maxWidth, width);
            && (AllFit(w.lines, maxWidth, width) && Fits(w.current, maxWidth, width) ==>
                  AllFit(r.0.lines, maxWidth, width) && Fits(r.0.current, maxWidth, width))
            && |r.0.lines| >= |w.lines| + (if c == '\n' then 1 else 0)
            && EmptyLines(r.0.lines) <= EmptyLines(w.lines) + (if c == '\n' then 1 else 0)
            && (!IsSeparator(c) ==> r.1 != "")
            && (IsSeparator(c) && c != '\n' && r.0.current == "" ==> w.current == "" && word == "" && r.0 == w)
  {
    AddWordKeeps(w, word, maxWidth, width);
    var a := AddWord(w, word, maxWidth, width);
    EmitLine(a.lines, a.current, maxWidth, width);
  }

  /**
   * What the loop of `WrapText` keeps after the first `n` characters: the
   * words emitted and pending are the word scan; lines are single lines that
   * fit; there is a line per newline and no more empty lines than newlines;
   * and an empty last line with nothing pending follows a newline and blanks.
   */
  predicate Progress(s: string, n: nat, w: Wrapping, word: string, maxWidth: real, width: Width)
    requires n <= |s|
  {
    && Scanned(Flat(w.lines) + Words(w.current), word) == Scan(s, n)
    && NoSeparator(word) && OneLine(w.current) && AllOneLine(w.lines)
    && (NoBreakBefore(s, n) ==> NoEmptyLine(w.lines))
    && AllFit(w.lines, maxWidth, width) && Fits(w.current, maxWidth, width)
    && Newlines(s, n) <= |w.lines| && EmptyLines(w.lines) <= Newlines(s, n)
    && (word == "" && w.current == "" && w.lines != [] && w.lines[|w.lines| - 1] == "" ==> EndsBlank(s, n))
  }

  /** Each character keeps `Progress`. */
  lemma StepProgress(s: string, n: nat, w: Wrapping, word: string, maxWidth: real, width: Width)
    requires n < |s| && Progress(s, n, w, word, maxWidth, width)
    ensures var r := Fed(s[n], w, word, maxWidth, width);
            Progress(s, n + 1, r.0, r.1, maxWidth, width)
  {
    FedScans(s[n], w, word, maxWidth, width);
    FedKeeps(s[n], w, word, maxWidth, width);
  }

  /** The lines `WrapText` returns once the text is read: the last word offered, and the line emitted unless empty. */
  function Finished(w: Wrapping, word: string, maxWidth: real, width: Width): seq<string>
  {
    var a := AddWord(w, word, maxWidth, width);
    if a.current != "" then a.lines + [a.current] else a.lines
  }

  /** From `Progress` over the whole text, the finished lines hold the text's words, as single lines. */
  lemma FinishedWords(s: string, w: Wrapping, word: string, maxWidth: real, width: Width)
    requires Progress(s, |s|, w, word, maxWidth, width)
    ensures var r := Finished(w, word, maxWidth, width);
            && Flat(r) == Words(s) && AllOneLine(r)
            && (NoBreakBefore(s, |s|) ==> NoEmptyLine(r))
  {
    AddWordScans(w, word, maxWidth, width);
    var a := AddWord(w, word, maxWidth, width);
    if a.current != "" {
      AppendLine(a.lines, a.current);
    } else {
      WordsOfWord(a.current);
      assert Flat(a.lines) + [] == Flat(a.lines);
    }
  }

  /** The text "\n " wraps to one empty line: a last empty line need not come from a final newline. */
  lemma NewlineThenBlank(maxWidth: real, width: Width)
    ensures var r1 := Fed('\n', Wrapping([], ""), "", maxWidth, width);
            var r2 := Fed(' ', r1.0, r1.1, maxWidth, width);
            Finished(r2.0, r2.1, maxWidth, width) == [""]
  {
  }

  /** Words that fit together share a line: "a b" wraps to the single line "a b" when that line fits. */
  lemma FittingWordsShareLine(maxWidth: real, width: Width)
    requires width("a b") <= maxWidth
    ensures var r := FedAll("a b", 3, maxWidth, width);
            Finished(r.0, r.1, maxWidth, width) == ["a b"]
  {
    var s := "a b";
    assert s[0] == 'a' && s[1] == ' ' && s[2] == 'b';
    assert !IsSeparator('a') && !IsSeparator('b') && IsSeparator(' ');
    assert "" + ['a'] == "a" && "" + ['b'] == "b";
    assert FedAll(s, 1, maxWidth, width) == (Wrapping([], ""), "a");
    assert FedAll(s, 2, maxWidth, width) == (Wrapping([], "a"), "");
    assert FedAll(s, 3, maxWidth, width) == (Wrapping([], "a"), "b");
    assert "a" + " " + "b" == s;
  }

  /**
   * From `Progress` over the whole text, the finished lines fit, there is a
   * line per newline and no more empty lines than newlines, and an empty last
   * line follows a newline and blanks.
   */
  lemma FinishedFits(s: string, w: Wrapping, word: string, maxWidth: real, width: Width)
    requires Progress(s, |s|, w, word, maxWidth, width)
    ensures var r := Finished(w, word, maxWidth, width);
            && AllFit(r, maxWidth, width)
            && Newlines(s, |s|) <= |r| && EmptyLines(r) <= Newlines(s, |s|)
            && (r != [] && r[|r| - 1] == "" ==> EndsBlank(s, |s|))
  {
    AddWordKeeps(w, word, maxWidth, width);
    var a := AddWord(w, word, maxWidth, width);
    EmitLine(a.lines, a.current, maxWidth, width);
  }

  /**
   * `WrapText` over the C string held by `text`: the words of the lines are
   * the words of the text, in order; every line is one line (no newline or
   * tab inside); every line of more than one word is no wider than
   * `maxWidth`; every newline ends a line, and a line is empty only for a
   * newline, so a text without one yields no empty line; and the last line is
   * empty only if the text ends in a newline followed by blanks alone.
   */
  method WrapText(text: seq<char>, maxWidth: real, width: Width) returns (lines: seq<string>)
    ensures Flat(lines) == Words(CString(text))
    ensures AllOneLine(lines)
    ensures forall j :: 0 <= j < |lines| && ' ' in lines[j] ==> width(lines[j]) <= maxWidth
    ensures Newlines(CString(text), |CString(text)|) <= |lines|
    ensures EmptyLines(lines) <= Newlines(CString(text), |CString(text)|)
    ensures NoBreakBefore(CString(text), |CString(text)|) ==> NoEmptyLine(lines)
    ensures lines != [] && lines[|lines| - 1] == "" ==> EndsBlank(CString(text), |CString(text)|)
    ensures var r := FedAll(CString(text), |CString(text)|, maxWidth, width);
            lines == Finished(r.0, r.1, maxWidth, width)
  {
    var current, word;
    lines, current, word := ScanText(text, maxWidth, width);
    ghost var w, pending := Wrapping(lines, current), word;
    lines := Finish(lines, current, word, maxWidth, width);
    FinishedWords(CString(text), w, pending, maxWidth, width);
    FinishedFits(CString(text), w, pending, maxWidth, width);
    AllFitMeans(lines, maxWidth, width);
  }

  /** The end of `WrapText`: the last word is offered, and the current line emitted unless it is empty. */
  method Finish(lines: seq<string>, current: string, word: string, maxWidth: real, width: Width)
    returns (lines': seq<string>)
    requires NoSeparator(word) && OneLine(current) && AllOneLine(lines)
    ensures lines' == Finished(Wrapping(lines, current), word, maxWidth, width)
  {
    var current', word';
    current', word', lines' := TryAddWord(current, word, maxWidth, width, lines);
    if current' != "" {
      lines' := lines' + [current'];
    }
  }

  /** One character of the `WrapText` loop, as `Fed` says. */
  method Feed(c: char, lines: seq<string>, current: string, word: string, maxWidth: real, width: Width)
    returns (lines': seq<string>, current': string, word': string)
    requires NoSeparator(word) && OneLine(current) && AllOneLine(lines)
    ensures (Wrapping(lines', current'), word') == Fed(c, Wrapping(lines, current), word, maxWidth, width)
    ensures Scanned(Flat(lines') + Words(current'), word') == Step(Scanned(Flat(lines) + Words(current), word), c)
    ensures NoSeparator(word') && OneLine(current') && AllOneLine(lines')
    ensures NoEmptyLine(lines) && c != '\n' ==> NoEmptyLine(lines')
  {
    lines', current', word' := lines, current, word;
    if !IsSeparator(c) {
      word' := word + [c];
    } else {
      current', word', lines' := TryAddWord(current, word, maxWidth, width, lines);
      if c == '\n' {
        lines' := lines' + [current'];
        current' := "";
      }
    }
    FedScans(c, Wrapping(lines, current), word, maxWidth, width);
  }

  /** The loop of `WrapText`: it stops at the terminator, holding the lines so far, the current line and the last word. */
  method ScanText(text: seq<char>, maxWidth: real, width: Width)
    returns (lines: seq<string>, current: string, word: string)
    ensures (Wrapping(lines, current), word) == FedAll(CString(text), |CString(text)|, maxWidth, width)
    ensures Progress(CString(text), |CString(text)|, Wrapping(lines, current), word, maxWidth, width)
  {
    ghost var s := CString(text);
    lines := [];
    current := "";
    word := "";
    var i := 0;
    while i < |text| && text[i] != Nul
      invariant i <= |s|
      invariant (Wrapping(lines, current), word) == FedAll(s, i, maxWidth, width)
    {
      CStringAt(text, i);
      FedAllProgress(s, i, maxWidth, width);
      lines, current, word := Feed(text[i], lines, current, word, maxWidth, width);
      i := i + 1;
    }
    CStringAt(text, i);
    FedAllProgress(s, i, maxWidth, width);
  }
}
