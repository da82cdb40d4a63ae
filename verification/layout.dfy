/** Line layout of multi-line text: the indentation every non-empty line
    carries, by which the syntax-tree dump is measured. */
module Layout {
  import opened Common

  /** `s` begins with at least `n` blanks. */
  predicate LeadingBlanks(s: string, n: nat) {
    n <= |s| && forall j :: 0 <= j < n ==> s[j] == ' '
  }

  /** Scanning `s` from its first character, where `atStart` says whether
      that character begins a line: every non-empty line that begins in `s`
      begins with at least `n` blanks. */
  ghost predicate IndentedAt(s: string, n: nat, atStart: bool)
    decreases |s|
  {
    if s == [] then true
    else (atStart && s[0] != '\n' ==> LeadingBlanks(s, n)) && IndentedAt(s[1..], n, s[0] == '\n')
  }

  /** Every non-empty line of `s` begins with at least `n` blanks. */
  ghost predicate Indented(s: string, n: nat) {
    IndentedAt(s, n, true)
  }

  /** Whether the character after `s` begins a line, given the same for the
      first character of `s`. */
  function EndsLine(s: string, atStart: bool): bool {
    if s == [] then atStart else s[|s| - 1] == '\n'
  }

  /** The last line of `s` is still open: `s` is non-empty and does not end
      in a line break. */
  predicate OpenLine(s: string) {
    |s| > 0 && s[|s| - 1] != '\n'
  }

  /** Each of `parts` on lines of its own after a header line: a line break,
      then the part. */
  function Below(parts: seq<string>): string
    decreases |parts|
  {
    if parts == [] then "" else "\n" + parts[0] + Below(parts[1..])
  }

  /** Scanning from a line start asks more than scanning from mid-line. */
  lemma AtStartIsStronger(s: string, n: nat)
    requires IndentedAt(s, n, true)
    ensures IndentedAt(s, n, false)
  {
  }

  /** Text without a line break starts no line of its own. */
  lemma {:induction false} NoBreakIndented(t: string, n: nat)
    requires '\n' !in t
    ensures IndentedAt(t, n, false)
    decreases |t|
  {
    if t != [] {
      assert '\n' !in t[1..] by {
        forall k | 0 <= k < |t[1..]| ensures t[1..][k] != '\n' {
          assert t[1..][k] == t[k + 1];
        }
      }
      NoBreakIndented(t[1..], n);
    }
  }

  /** The scan of `a + b` is the scan of `a` followed by the scan of `b` from
      the state `a` ends in. */
  lemma {:induction false} AppendAt(a: string, b: string, n: nat, atStart: bool)
    requires IndentedAt(a, n, atStart) && IndentedAt(b, n, EndsLine(a, atStart))
    ensures IndentedAt(a + b, n, atStart)
    decreases |a|
  {
    if a == [] {
      assert a + b == b;
    } else {
      var s := a + b;
      assert s[0] == a[0];
      assert s[1..] == a[1..] + b;
      assert EndsLine(a[1..], a[0] == '\n') == EndsLine(a, atStart);
      AppendAt(a[1..], b, n, a[0] == '\n');
      if atStart && a[0] != '\n' {
        assert LeadingBlanks(a, n);
        assert LeadingBlanks(s, n) by {
          forall j | 0 <= j < n ensures s[j] == ' ' {
            assert s[j] == a[j];
          }
        }
      }
    }
  }

  /** A line break alone adds no line that needs indenting. */
  lemma NewlineIndented(n: nat)
    ensures Indented("\n", n)
  {
    assert "\n"[1..] == [];
  }

  /** `k` blanks and then text without a line break: one open line indented by `k`. */
  lemma BlankHeader(k: nat, text: string)
    requires '\n' !in text && |text| > 0
    ensures Indented(Spaces(k) + text, k) && OpenLine(Spaces(k) + text)
  {
    var s := Spaces(k) + text;
    assert s[|s| - 1] == text[|text| - 1];
    assert '\n' !in s[1..] by {
      forall j | 0 <= j < |s[1..]| ensures s[1..][j] != '\n' {
        if j + 1 < k {
          assert s[j + 1] == ' ';
        } else {
          assert s[j + 1] == text[j + 1 - k];
        }
      }
    }
    NoBreakIndented(s[1..], k);
    assert s[0] != '\n' by {
      if k == 0 {
        assert s[0] == text[0];
      }
    }
  }

  /** Indented text laid after indented text is indented. */
  lemma IndentedAppend(a: string, b: string, n: nat)
    requires Indented(a, n) && Indented(b, n)
    ensures Indented(a + b, n)
  {
    if !EndsLine(a, true) {
      AtStartIsStronger(b, n);
    }
    AppendAt(a, b, n, true);
  }

  /** Text without a line break continues the open last line of `a`. */
  lemma IndentedExtend(a: string, t: string, n: nat)
    requires Indented(a, n) && OpenLine(a) && '\n' !in t
    ensures Indented(a + t, n) && OpenLine(a + t)
  {
    NoBreakIndented(t, n);
    AppendAt(a, t, n, true);
    var s := a + t;
    if |t| > 0 {
      assert s[|s| - 1] == t[|t| - 1];
    } else {
      assert s == a;
    }
  }

  /** Ending the open last line of `a` with text and a line break. */
  lemma IndentedEndLine(a: string, t: string, n: nat)
    requires Indented(a, n) && OpenLine(a) && |t| > 0 && t[|t| - 1] == '\n' && '\n' !in t[..|t| - 1]
    ensures Indented(a + t, n)
  {
    IndentedExtend(a, t[..|t| - 1], n);
    NewlineIndented(n);
    IndentedAppend(a + t[..|t| - 1], "\n", n);
    assert a + t == a + t[..|t| - 1] + "\n";
  }

  /** `a + (sep + b)` when `a + sep` and `b` are indented. */
  lemma IndentedJoin(a: string, sep: string, b: string, n: nat)
    requires Indented(a + sep, n) && Indented(b, n)
    ensures Indented(a + (sep + b), n)
  {
    IndentedAppend(a + sep, b, n);
    assert a + (sep + b) == a + sep + b;
  }

  /** Deeper indentation implies shallower indentation. */
  lemma {:induction false} WeakenAt(s: string, n: nat, m: nat, atStart: bool)
    requires IndentedAt(s, n, atStart) && m <= n
    ensures IndentedAt(s, m, atStart)
    decreases |s|
  {
    if s != [] {
      WeakenAt(s[1..], n, m, s[0] == '\n');
    }
  }

  /** Deeper indentation implies shallower indentation. */
  lemma IndentedWeaken(s: string, n: nat, m: nat)
    requires Indented(s, n) && m <= n
    ensures Indented(s, m)
  {
    WeakenAt(s, n, m, true);
  }

  /** An indented section after a line break, appended to indented text. */
  lemma OptionalSectionIndented(a: string, section: string, n: nat)
    requires Indented(a, n) && Indented(section, n)
    ensures Indented(a + ("\n" + section), n)
  {
    NewlineIndented(n);
    IndentedAppend("\n", section, n);
    IndentedAppend(a, "\n" + section, n);
  }

  /** Two indented sections separated by a line break. */
  lemma SectionsIndented(first: string, second: string, n: nat)
    requires Indented(first, n) && Indented(second, n)
    ensures Indented(first + "\n" + second, n)
  {
    NewlineIndented(n);
    IndentedAppend(first, "\n", n);
    IndentedAppend(first + "\n", second, n);
  }
}
