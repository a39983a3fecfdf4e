/**
 * The classifier `Input.eval` applies to what the console returned: text
 * that the pattern `^-?\d+(\.\d+)?$` finds is converted to a number, any
 * other text is returned as it is. The console read and the float
 * conversion are not modelled; the classification is.
 */
module InputClassifier {

  predicate IsDigit(c: char)
  {
    '0' <= c <= '9'
  }

  /** One or more decimal digits: `\d+`. */
  predicate IsDigits(t: string)
  {
    |t| > 0 && forall i :: 0 <= i < |t| ==> IsDigit(t[i])
  }

  /** The optional fractional part `(\.\d+)?`. */
  predicate IsFraction(f: string)
  {
    f == [] || (f[0] == '.' && IsDigits(f[1..]))
  }

  /** The pattern, part by part: an optional minus sign, digits, an optional
      fraction, and the end of the text, which `$` also finds just before a
      final newline. */
  ghost predicate Matches(s: string)
  {
    exists sign: string, whole: string, frac: string, nl: string ::
      && s == sign + whole + frac + nl
      && (sign == "" || sign == "-")
      && IsDigits(whole)
      && IsFraction(frac)
      && (nl == "" || nl == "\n")
  }

  /** Where the scanner is in the pattern. */
  datatype Phase = Start | AfterSign | InWhole | AfterDot | InFraction | AfterNewline

  /** A left-to-right scan of `u` from phase `p`; true when the text ends in
      an accepting phase. */
  function Scan(u: string, p: Phase): bool
    decreases |u|
  {
    if |u| == 0 then p == InWhole || p == InFraction || p == AfterNewline
    else
      var c := u[0];
      match p
      case Start => if c == '-' then Scan(u[1..], AfterSign) else IsDigit(c) && Scan(u[1..], InWhole)
      case AfterSign => IsDigit(c) && Scan(u[1..], InWhole)
      case InWhole =>
        if IsDigit(c) then Scan(u[1..], InWhole)
        else if c == '.' then Scan(u[1..], AfterDot)
        else c == '\n' && Scan(u[1..], AfterNewline)
      case AfterDot => IsDigit(c) && Scan(u[1..], InFraction)
      case InFraction =>
        if IsDigit(c) then Scan(u[1..], InFraction)
        else c == '\n' && Scan(u[1..], AfterNewline)
      case AfterNewline => false
  }

  /** The value `Input.eval` returns: a number when the pattern matches,
      otherwise the text itself. */
  datatype InputValue = Number(text: string) | Text(text: string)

  function Classify(s: string): (r: InputValue)
    ensures r.text == s
  {
    if Scan(s, Start) then Number(s) else Text(s)
  }

  // ---------------------------------------------------------------- scanner against pattern

  /** Digits keep the scanner in the whole or the fractional part. */
  lemma {:induction false} SkipDigits(d: string, r: string, p: Phase)
    requires p == InWhole || p == InFraction
    requires forall i :: 0 <= i < |d| ==> IsDigit(d[i])
    ensures Scan(d + r, p) == Scan(r, p)
    decreases |d|
  {
    if |d| > 0 {
      assert (d + r)[0] == d[0] && IsDigit(d[0]);
      assert (d + r)[1..] == d[1..] + r;
      assert Scan(d + r, p) == Scan(d[1..] + r, p);
      SkipDigits(d[1..], r, p);
    } else {
      assert d + r == r;
    }
  }

  /** What the scanner accepts from the fractional part on: digits, then
      possibly one newline. */
  lemma {:induction false} FractionParts(u: string) returns (ds: string, nl: string)
    requires Scan(u, InFraction)
    ensures u == ds + nl && (forall i :: 0 <= i < |ds| ==> IsDigit(ds[i])) && (nl == "" || nl == "\n")
    decreases |u|
  {
    if |u| == 0 {
      ds, nl := "", "";
    } else if IsDigit(u[0]) {
      var rest, n := FractionParts(u[1..]);
      ds, nl := [u[0]] + rest, n;
      assert u == [u[0]] + u[1..];
    } else {
      ds, nl := "", "\n";
      assert u == [u[0]] + u[1..];
    }
  }

  /** What the scanner accepts from the whole part on: digits, an optional
      fraction, possibly one newline. */
  lemma {:induction false} WholeParts(u: string) returns (ds: string, frac: string, nl: string)
    requires Scan(u, InWhole)
    ensures u == ds + frac + nl && (forall i :: 0 <= i < |ds| ==> IsDigit(ds[i]))
    ensures IsFraction(frac) && (nl == "" || nl == "\n")
    decreases |u|
  {
    assert |u| > 0 ==> u == [u[0]] + u[1..];
    if |u| == 0 {
      ds, frac, nl := "", "", "";
    } else if IsDigit(u[0]) {
      var rest, f, n := WholeParts(u[1..]);
      ds, frac, nl := [u[0]] + rest, f, n;
    } else if u[0] == '.' {
      var v := u[1..];
      assert |v| > 0 && IsDigit(v[0]) && Scan(v[1..], InFraction);
      var fs, n := FractionParts(v[1..]);
      ds, frac, nl := "", ['.', v[0]] + fs, n;
      assert frac[1..] == [v[0]] + fs;
      assert v == [v[0]] + v[1..];
    } else {
      ds, frac, nl := "", "", "\n";
    }
  }

  /** A digit followed by what the whole part accepts splits into the
      pattern's digits, fraction and end. */
  lemma WholeFrom(u: string) returns (whole: string, frac: string, nl: string)
    requires |u| > 0 && IsDigit(u[0]) && Scan(u[1..], InWhole)
    ensures u == whole + frac + nl && IsDigits(whole) && IsFraction(frac) && (nl == "" || nl == "\n")
  {
    var ds;
    ds, frac, nl := WholeParts(u[1..]);
    whole := [u[0]] + ds;
    assert u == [u[0]] + u[1..];
  }

  /** Every text the scanner accepts has the pattern's form. */
  lemma ScanSound(s: string)
    requires Scan(s, Start)
    ensures Matches(s)
  {
    if s[0] == '-' {
      var whole, frac, nl := WholeFrom(s[1..]);
      assert s == "-" + whole + frac + nl;
    } else {
      var whole, frac, nl := WholeFrom(s);
      assert s == "" + whole + frac + nl;
    }
  }

  /** The fraction and the end of the pattern take the scanner to an
      accepting phase. */
  lemma FractionAccepted(frac: string, nl: string)
    requires IsFraction(frac) && (nl == "" || nl == "\n")
    ensures Scan(frac + nl, InWhole)
  {
    if frac != [] {
      var fd := frac[1..];
      assert (frac + nl)[1..] == fd + nl;
      assert (fd + nl)[1..] == fd[1..] + nl;
      SkipDigits(fd[1..], nl, InFraction);
    }
  }

  /** Every text of the pattern's form is accepted by the scanner. */
  lemma ScanComplete(s: string)
    requires Matches(s)
    ensures Scan(s, Start)
  {
    var sign: string, whole: string, frac: string, nl: string :|
      && s == sign + whole + frac + nl
      && (sign == "" || sign == "-")
      && IsDigits(whole)
      && IsFraction(frac)
      && (nl == "" || nl == "\n");
    var u := whole + (frac + nl);
    assert s == sign + u;
    FractionAccepted(frac, nl);
    SkipDigits(whole[1..], frac + nl, InWhole);
    assert u[1..] == whole[1..] + (frac + nl);
    if sign == "-" {
      assert s[1..] == u;
    } else {
      assert s == u;
    }
  }

  /** The classifier returns a number exactly for the texts the pattern
      matches, and the text itself otherwise. */
  lemma ClassifyMatches(s: string)
    ensures Classify(s).Number? <==> Matches(s)
  {
    if Scan(s, Start) {
      ScanSound(s);
    } else if Matches(s) {
      ScanComplete(s);
    }
  }
}
