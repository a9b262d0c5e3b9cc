/**
 The names the probe accepts, as a grammar.

 A name is accepted exactly when it begins with a template word, an opening
 parenthesis, some arguments separated by commas and a closing parenthesis.  An
 argument is a word, or a word that may be empty followed by a balanced list in
 parentheses.  What comes after the closing parenthesis is not looked at.
 */
module AlgGrammar {
  import opened Options
  import opened AlgName

  /** Read from nesting level `depth`, the text never closes more than is open, and at
      its end nothing is. */
  predicate Balanced(s: string, depth: nat) {
    if s == [] then depth == 0
    else if s[0] == '(' then Balanced(s[1..], depth + 1)
    else if s[0] == ')' then depth > 0 && Balanced(s[1..], depth - 1)
    else Balanced(s[1..], depth)
  }

  /** A list in parentheses after a word. */
  ghost predicate IsList(text: string) {
    exists w: nat :: w + 2 <= |text| && AllWord(text[..w]) && text[w] == '(' && text[|text| - 1] == ')'
      && Balanced(text[w + 1..|text| - 1], 0)
  }

  ghost predicate IsArg(a: Arg) {
    || (a.text != [] && AllWord(a.text) && a.num == AllDigits(a.text))
    || (IsList(a.text) && !a.num)
  }

  ghost predicate AreArgs(args: seq<Arg>) {
    args == [] || (IsArg(args[0]) && AreArgs(args[1..]))
  }

  /** The arguments as they are written, with the parenthesis that ends them. */
  function Written(args: seq<Arg>): string {
    if args == [] then ""
    else args[0].text + (if |args| == 1 then ")" else "," + Written(args[1..]))
  }

  // ---- Words -------------------------------------------------------------------

  lemma {:induction false} WordLenIs(s: string, n: nat)
    ensures WordLen(s) == n <==> n <= |s| && AllWord(s[..n]) && (n < |s| ==> !IsWord(s[n]))
  {
    if s != [] {
      if n > 0 {
        WordLenIs(s[1..], n - 1);
        if n <= |s| { assert s[..n][1..] == s[1..][..n - 1]; }
      }
    }
  }

  // ---- Lists -------------------------------------------------------------------

  lemma {:induction false} CloseLenIs(s: string, depth: nat, k: nat)
    ensures CloseLen(s, depth) == Some(k) <==> 1 <= k <= |s| && s[k - 1] == ')' && Balanced(s[..k - 1], depth)
  {
    if s != [] && !(s[0] == ')' && depth == 0) {
      var d := if s[0] == '(' then depth + 1 else if s[0] == ')' then depth - 1 else depth;
      if 1 < k <= |s| {
        CloseLenIs(s[1..], d, k - 1);
        assert s[..k - 1][1..] == s[1..][..k - 2];
      }
    } else if s != [] && 1 < k <= |s| {
      assert !Balanced(s[..k - 1], 0);
    }
  }

  // ---- One argument --------------------------------------------------------------

  /** Where an argument may end. */
  predicate EndsAt(s: string, n: nat) {
    n < |s| && (s[n] == ',' || s[n] == ')')
  }

  /** A word that is followed by something else is the longest one. */
  lemma {:induction false} WordAt(s: string, text: string, w: nat)
    requires text <= s && w <= |text| && AllWord(text[..w]) && w < |s| && !IsWord(s[w])
    ensures WordLen(s) == w
  {
    assert s[..w] == text[..w];
    WordLenIs(s, w);
  }

  /** A list is read exactly to the parenthesis that closes it. */
  lemma {:induction false} ListAt(s: string, text: string, w: nat)
    requires text <= s && w == WordLen(s) < |s| && s[w] == '('
    ensures OneArg(s) == Some(Arg(text, false)) <==>
      w + 2 <= |text| && text[|text| - 1] == ')' && Balanced(text[w + 1..|text| - 1], 0)
  {
    var n, t := |text|, s[w + 1..];
    if w + 2 <= n {
      CloseLenIs(t, 0, n - w - 1);
      Inside(s, text, w + 1);
    }
    assert text == s[..n];
  }

  /** The part of a text after a position and before its last character. */
  lemma Inside(s: string, text: string, p: nat)
    requires text <= s && p < |text|
    ensures s[p..][..|text| - 1 - p] == text[p..|text| - 1] && s[p..][|text| - 1 - p] == text[|text| - 1]
  {
    assert text == s[..|text|];
    assert s[p..][..|text| - 1 - p] == s[p..|text| - 1];
  }

  lemma {:induction false} ReadIsArg(s: string, a: Arg)
    requires OneArg(s) == Some(a)
    ensures a.text <= s && IsArg(a)
  {
    var w := WordLen(s);
    WordLenIs(s, w);
    if w < |s| && s[w] == '(' {
      ListAt(s, a.text, w);
      assert a.text[..w] == s[..w];
      assert IsList(a.text);
    }
  }

  lemma {:induction false} WordIsRead(s: string, a: Arg)
    requires a.text <= s && EndsAt(s, |a.text|) && a.text != [] && AllWord(a.text) && a.num == AllDigits(a.text)
    ensures OneArg(s) == Some(a)
  {
    assert a.text[..|a.text|] == a.text;
    WordAt(s, a.text, |a.text|);
    assert s[..|a.text|] == a.text;
  }

  lemma {:induction false} ListIsRead(s: string, text: string)
    requires text <= s && IsList(text)
    ensures OneArg(s) == Some(Arg(text, false))
  {
    var w: nat :| w + 2 <= |text| && AllWord(text[..w]) && text[w] == '(' && text[|text| - 1] == ')'
      && Balanced(text[w + 1..|text| - 1], 0);
    WordAt(s, text, w);
    ListAt(s, text, w);
  }

  /** An argument before a separator is read whole. */
  lemma {:induction false} ArgIsRead(s: string, a: Arg)
    requires a.text <= s && EndsAt(s, |a.text|) && IsArg(a)
    ensures OneArg(s) == Some(a)
  {
    if a.text != [] && AllWord(a.text) && a.num == AllDigits(a.text) {
      WordIsRead(s, a);
    } else {
      ListIsRead(s, a.text);
    }
  }

  // ---- All arguments --------------------------------------------------------------

  lemma {:induction false} HeadAt(s: string, head: string, c: char, rest: string)
    ensures head + [c] + rest <= s <==> head <= s && |head| < |s| && s[|head|] == c && rest <= s[|head| + 1..]
  {
    var n, h := |head|, head + [c];
    if head <= s && n < |s| {
      assert s == head + [s[n]] + s[n + 1..];
    }
    if h + rest <= s {
      assert (h + rest)[n] == c && (h + rest)[..n] == head;
      assert (h + rest)[n + 1..] == rest;
      assert (h + rest)[n + 1..] <= s[n + 1..];
    }
  }

  lemma {:induction false} WrittenAt(s: string, args: seq<Arg>)
    requires args != []
    ensures var n := |args[0].text|;
      Written(args) <= s <==>
        && args[0].text <= s && n < |s|
        && if |args| == 1 then s[n] == ')' else s[n] == ',' && Written(args[1..]) <= s[n + 1..]
  {
    var t := args[0].text;
    if |args| == 1 {
      HeadAt(s, t, ')', "");
      assert Written(args) == t + [')'] + "";
    } else {
      HeadAt(s, t, ',', Written(args[1..]));
      assert Written(args) == t + [','] + Written(args[1..]);
    }
  }

  /** The arguments stand at the beginning of a text, from the `i`-th on. */
  ghost predicate Stand(s: string, i: nat, args: seq<Arg>) {
    && args != [] && i + 1 < MAX_ATTRS && IsArg(args[0]) && args[0].text <= s && EndsAt(s, |args[0].text|)
    && if s[|args[0].text|] == ')' then |args| == 1 else Stand(s[|args[0].text| + 1..], i + 1, args[1..])
  }

  lemma {:induction false} StandIs(s: string, i: nat, args: seq<Arg>)
    ensures Stand(s, i, args) <==> 1 <= |args| && i + |args| < MAX_ATTRS && AreArgs(args) && Written(args) <= s
    decreases |args|
  {
    if args != [] {
      WrittenAt(s, args);
      if args[0].text <= s && EndsAt(s, |args[0].text|) {
        StandIs(s[|args[0].text| + 1..], i + 1, args[1..]);
      }
      if |args| == 1 { assert args[1..] == []; }
    }
  }

  /** One argument more. */
  lemma {:induction false} StandMore(s: string, i: nat, a: Arg, rest: seq<Arg>)
    requires i + 1 < MAX_ATTRS && IsArg(a) && a.text <= s && EndsAt(s, |a.text|)
    ensures s[|a.text|] == ')' ==> Stand(s, i, [a])
    ensures s[|a.text|] == ',' && Stand(s[|a.text| + 1..], i + 1, rest) ==> Stand(s, i, [a] + rest)
  {
    assert ([a] + rest)[1..] == rest;
  }

  /** What reading found first, and what it went on with. */
  lemma {:induction false} FirstRead(s: string, i: nat)
    requires ParseArgs(s, i).Some?
    ensures OneArg(s).Some? && i + 1 < MAX_ATTRS && EndsAt(s, |OneArg(s).value.text|)
    ensures var a := OneArg(s).value; var next := ParseArgs(s[|a.text| + 1..], i + 1);
      if s[|a.text|] == ')' then ParseArgs(s, i).value == [a] else next.Some? && ParseArgs(s, i).value == [a] + next.value
  {
  }

  lemma {:induction false} ReadStand(s: string, i: nat)
    requires ParseArgs(s, i).Some?
    ensures Stand(s, i, ParseArgs(s, i).value)
    decreases |s|
  {
    FirstRead(s, i);
    var a := OneArg(s).value;
    var t := s[|a.text| + 1..];
    ReadIsArg(s, a);
    if s[|a.text|] == ',' {
      ReadStand(t, i + 1);
      StandMore(s, i, a, ParseArgs(t, i + 1).value);
    } else {
      StandMore(s, i, a, []);
    }
  }

  /** Reading on after the first argument. */
  lemma {:induction false} ReadOn(s: string, i: nat, a: Arg, rest: seq<Arg>)
    requires OneArg(s) == Some(a) && i + 1 < MAX_ATTRS && EndsAt(s, |a.text|)
    ensures s[|a.text|] == ')' ==> ParseArgs(s, i) == Some([a])
    ensures s[|a.text|] == ',' && ParseArgs(s[|a.text| + 1..], i + 1) == Some(rest) ==> ParseArgs(s, i) == Some([a] + rest)
  {
  }

  lemma {:induction false} StandIsRead(s: string, i: nat, args: seq<Arg>)
    requires Stand(s, i, args)
    ensures ParseArgs(s, i) == Some(args)
    decreases |s|
  {
    var a, rest := args[0], args[1..];
    assert args == [a] + rest;
    ArgIsRead(s, a);
    if s[|a.text|] == ')' {
      assert args == [a];
    } else {
      StandIsRead(s[|a.text| + 1..], i + 1, rest);
    }
    ReadOn(s, i, a, rest);
  }

  // ---- Names -----------------------------------------------------------------------

  /** A template and its arguments, in this form. */
  ghost predicate IsParsed(p: Parsed) {
    p.tmpl != [] && AllWord(p.tmpl) && 1 <= |p.args| < MAX_ATTRS && AreArgs(p.args)
  }

  /** The template of a name that is accepted. */
  lemma {:induction false} TemplateRead(s: string, p: Parsed)
    requires Parse(s) == Some(p)
    ensures p.tmpl != [] && AllWord(p.tmpl) && p.tmpl <= s && |p.tmpl| < |s| && s[|p.tmpl|] == '('
    ensures ParseArgs(s[|p.tmpl| + 1..], 0) == Some(p.args)
  {
    WordLenIs(s, WordLen(s));
  }

  lemma {:induction false} ArgsRead(s: string, args: seq<Arg>)
    requires ParseArgs(s, 0) == Some(args)
    ensures 1 <= |args| < MAX_ATTRS && AreArgs(args) && Written(args) <= s
  {
    ReadStand(s, 0);
    StandIs(s, 0, args);
  }

  lemma {:induction false} ParsedIsName(s: string, p: Parsed)
    requires Parse(s) == Some(p)
    ensures IsParsed(p) && p.tmpl + "(" + Written(p.args) <= s
  {
    TemplateRead(s, p);
    ArgsRead(s[|p.tmpl| + 1..], p.args);
    HeadAt(s, p.tmpl, '(', Written(p.args));
  }

  lemma {:induction false} NameIsParsed(s: string, p: Parsed)
    requires IsParsed(p) && p.tmpl + "(" + Written(p.args) <= s
    ensures Parse(s) == Some(p)
  {
    var t := p.tmpl;
    HeadAt(s, t, '(', Written(p.args));
    assert t[..|t|] == t;
    WordAt(s, t, |t|);
    StandIs(s[|t| + 1..], 0, p.args);
    StandIsRead(s[|t| + 1..], 0, p.args);
    assert s[..|t|] == t;
  }

  /** The probe accepts exactly the names of this form, and reads exactly their parts. */
  lemma {:induction false} ParsesExactly(s: string, p: Parsed)
    ensures Parse(s) == Some(p) <==> IsParsed(p) && p.tmpl + "(" + Written(p.args) <= s
  {
    if Parse(s) == Some(p) { ParsedIsName(s, p); }
    if IsParsed(p) && p.tmpl + "(" + Written(p.args) <= s { NameIsParsed(s, p); }
  }
}
