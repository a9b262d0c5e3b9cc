/**
 Crypto algorithm names: how templates build them and how the probe takes them
 apart again.
 */
module AlgName {
  import opened Options

  const MAX_ATTRS: nat := 32
  const MAX_NAME: nat := 64

  /** A template with arguments, or a plain algorithm. */
  datatype Name = Name(word: string, args: Names)
  datatype Names = Nil | Cons(head: Name, tail: Names)

  /** An argument as the probe hands it on: its text, and whether it is a number. */
  datatype Arg = Arg(text: string, num: bool)

  datatype Parsed = Parsed(tmpl: string, args: seq<Arg>)

  // ---- Characters ---------------------------------------------------------------

  predicate IsDigit(c: char) {
    '0' <= c <= '9'
  }

  /** `isalnum` of the kernel's table, which knows the Latin-1 letters, or a dash or
      underscore. */
  predicate IsWord(c: char) {
    || IsDigit(c) || 'a' <= c <= 'z' || 'A' <= c <= 'Z' || c == '-' || c == '_'
    || (192 <= c as int <= 255 && c as int != 215 && c as int != 247)
  }

  predicate AllWord(s: string) {
    s == [] || (IsWord(s[0]) && AllWord(s[1..]))
  }

  predicate AllDigits(s: string) {
    s == [] || (IsDigit(s[0]) && AllDigits(s[1..]))
  }

  // ---- Building names --------------------------------------------------------------

  function Print(n: Name): string {
    if n.args.Nil? then n.word else n.word + "(" + PrintAll(n.args) + ")"
  }

  function PrintAll(ns: Names): string {
    if ns.Nil? then ""
    else if ns.tail.Nil? then Print(ns.head)
    else Print(ns.head) + "," + PrintAll(ns.tail)
  }

  /** The names of `crypto_alloc_instance` and of authenc: refused when they do not
      fit. */
  function Instance(tmpl: string, args: Names): Option<string> {
    var s := tmpl + "(" + PrintAll(args) + ")";
    if |s| >= MAX_NAME then None else Some(s)
  }

  // ---- Taking names apart -------------------------------------------------------------

  function WordLen(s: string): (n: nat)
    ensures n <= |s|
  {
    if s != [] && IsWord(s[0]) then 1 + WordLen(s[1..]) else 0
  }

  /** How far the parenthesis that closes level `depth` is, itself included. */
  function CloseLen(s: string, depth: nat): (n: Option<nat>)
    ensures n.Some? ==> 1 <= n.value <= |s|
  {
    if s == [] then None
    else if s[0] == ')' && depth == 0 then Some(1)
    else
      var d := if s[0] == '(' then depth + 1 else if s[0] == ')' then depth - 1 else depth;
      match CloseLen(s[1..], d)
      case Some(k) => Some(k + 1)
      case None => None
  }

  /** One argument: a word, then perhaps a balanced list. */
  function OneArg(s: string): (r: Option<Arg>)
    ensures r.Some? ==> 1 <= |r.value.text| <= |s| && r.value.text == s[..|r.value.text|]
  {
    var w := WordLen(s);
    if w < |s| && s[w] == '(' then
      match CloseLen(s[w + 1..], 0)
      case Some(k) => Some(Arg(s[..w + 1 + k], false))
      case None => None
    else if w == 0 then None
    else Some(Arg(s[..w], AllDigits(s[..w])))
  }

  /** The arguments from the `i`-th on. */
  function ParseArgs(s: string, i: nat): Option<seq<Arg>>
    decreases |s|
  {
    match OneArg(s)
    case None => None
    case Some(a) =>
      var n := |a.text|;
      if i + 1 >= MAX_ATTRS || n >= |s| then None
      else if s[n] == ')' then Some([a])
      else if s[n] != ',' then None
      else match ParseArgs(s[n + 1..], i + 1)
        case Some(rest) => Some([a] + rest)
        case None => None
  }

  /** `cryptomgr_schedule_probe`, up to the point where the probe is started. */
  function Parse(s: string): Option<Parsed> {
    var w := WordLen(s);
    if w == 0 || w >= |s| || s[w] != '(' then None
    else match ParseArgs(s[w + 1..], 0)
      case Some(args) => Some(Parsed(s[..w], args))
      case None => None
  }

  // ---- Round trip -----------------------------------------------------------------------

  /** Words are not empty and hold word characters only. */
  predicate NameOk(n: Name) {
    n.word != [] && AllWord(n.word) && NamesOk(n.args)
  }

  predicate NamesOk(ns: Names) {
    ns.Nil? || (NameOk(ns.head) && NamesOk(ns.tail))
  }

  function Count(ns: Names): nat {
    if ns.Nil? then 0 else 1 + Count(ns.tail)
  }

  /** What the probe is to find: each argument's text, a number exactly when it is a
      plain word of digits. */
  function Texts(ns: Names): seq<Arg> {
    if ns.Nil? then []
    else [Arg(Print(ns.head), ns.head.args.Nil? && AllDigits(ns.head.word))] + Texts(ns.tail)
  }

  lemma {:induction false} WordLenOf(w: string, t: string)
    requires AllWord(w) && (t == [] || !IsWord(t[0]))
    ensures WordLen(w + t) == |w|
  {
    if w == [] {
      assert w + t == t;
    } else {
      assert (w + t)[1..] == w[1..] + t;
      WordLenOf(w[1..], t);
    }
  }

  function Shifted(k: nat, n: Option<nat>): Option<nat> {
    if n.None? then None else Some(k + n.value)
  }

  lemma {:induction false} SkipWord(w: string, t: string, depth: nat)
    requires AllWord(w)
    ensures CloseLen(w + t, depth) == Shifted(|w|, CloseLen(t, depth))
  {
    if w == [] {
      assert w + t == t;
    } else {
      assert (w + t)[1..] == w[1..] + t;
      SkipWord(w[1..], t, depth);
    }
  }

  lemma SkipOne(c: char, t: string, depth: nat)
    requires c != ')' || depth > 0
    ensures CloseLen([c] + t, depth)
         == Shifted(1, CloseLen(t, if c == '(' then depth + 1 else if c == ')' then depth - 1 else depth))
  {
    assert ([c] + t)[1..] == t;
  }

  /** The scan for a closing parenthesis passes over a printed name. */
  lemma {:induction false} SkipName(n: Name, t: string, depth: nat)
    requires NameOk(n)
    ensures CloseLen(Print(n) + t, depth) == Shifted(|Print(n)|, CloseLen(t, depth))
    decreases n
  {
    if n.args.Nil? {
      SkipWord(n.word, t, depth);
    } else {
      var body := PrintAll(n.args);
      assert Print(n) + t == n.word + (['('] + (body + ([')'] + t)));
      SkipWord(n.word, ['('] + (body + ([')'] + t)), depth);
      SkipOne('(', body + ([')'] + t), depth);
      SkipNames(n.args, [')'] + t, depth + 1);
      SkipOne(')', t, depth + 1);
    }
  }

  lemma {:induction false} SkipNames(ns: Names, t: string, depth: nat)
    requires NamesOk(ns)
    ensures CloseLen(PrintAll(ns) + t, depth) == Shifted(|PrintAll(ns)|, CloseLen(t, depth))
    decreases ns
  {
    if ns.Nil? {
      assert "" + t == t;
    } else if ns.tail.Nil? {
      SkipName(ns.head, t, depth);
    } else {
      var rest := PrintAll(ns.tail);
      assert PrintAll(ns) + t == Print(ns.head) + ([','] + (rest + t));
      SkipName(ns.head, [','] + (rest + t), depth);
      SkipOne(',', rest + t, depth);
      SkipNames(ns.tail, t, depth);
    }
  }

  lemma Front(a: string, b: string)
    ensures (a + b)[..|a|] == a && (a + b)[|a|..] == b
  {
  }

  /** A printed argument followed by a separator is read back whole. */
  lemma OneArgOf(n: Name, t: string)
    requires NameOk(n) && t != [] && (t[0] == ',' || t[0] == ')')
    ensures OneArg(Print(n) + t) == Some(Arg(Print(n), n.args.Nil? && AllDigits(n.word)))
  {
    Front(Print(n), t);
    if n.args.Nil? {
      WordLenOf(n.word, t);
    } else {
      var body := PrintAll(n.args);
      var after := body + ([')'] + t);
      assert Print(n) + t == n.word + (['('] + after);
      WordLenOf(n.word, ['('] + after);
      Front(n.word + ['('], after);
      assert n.word + (['('] + after) == (n.word + ['(']) + after;
      SkipNames(n.args, [')'] + t, 0);
    }
  }

  function Prepend(a: Arg, rest: Option<seq<Arg>>): Option<seq<Arg>> {
    if rest.None? then None else Some([a] + rest.value)
  }

  /** What the character after an argument decides. */
  lemma {:induction false} AfterArg(s: string, i: nat, a: Arg)
    requires OneArg(s) == Some(a)
    ensures var n := |a.text|;
      && n <= |s|
      && (i + 1 >= MAX_ATTRS || n == |s| || (s[n] != ')' && s[n] != ',') ==> ParseArgs(s, i).None?)
      && (i + 1 < MAX_ATTRS && n < |s| && s[n] == ')' ==> ParseArgs(s, i) == Some([a]))
      && (i + 1 < MAX_ATTRS && n < |s| && s[n] == ',' ==>
            ParseArgs(s, i) == Prepend(a, ParseArgs(s[n + 1..], i + 1)))
  {
    var n := |a.text|;
    if i + 1 < MAX_ATTRS && n < |s| && s[n] == ',' {
      AfterComma(s, i, a);
    }
  }

  lemma {:induction false} AfterComma(s: string, i: nat, a: Arg)
    requires OneArg(s) == Some(a) && |a.text| < |s| && s[|a.text|] == ',' && i + 1 < MAX_ATTRS
    ensures ParseArgs(s, i) == Prepend(a, ParseArgs(s[|a.text| + 1..], i + 1))
  {
    match ParseArgs(s[|a.text| + 1..], i + 1)
    case Some(rest) => assert ParseArgs(s, i) == Some([a] + rest);
    case None => assert ParseArgs(s, i).None?;
  }

  lemma LastShape(ns: Names, t: string)
    requires ns.Cons? && ns.tail.Nil?
    ensures var head := Print(ns.head);
      var s := PrintAll(ns) + ([')'] + t);
      s == head + ([')'] + t) && s[|head|] == ')'
    ensures Texts(ns) == [Arg(Print(ns.head), ns.head.args.Nil? && AllDigits(ns.head.word))]
  {
  }

  lemma ListShape(ns: Names, t: string)
    requires ns.Cons? && ns.tail.Cons?
    ensures var head, rest := Print(ns.head), PrintAll(ns.tail) + ([')'] + t);
      var s := PrintAll(ns) + ([')'] + t);
      s == head + ([','] + rest) && s[|head|] == ',' && s[|head| + 1..] == rest
  {
    var head, rest := Print(ns.head), PrintAll(ns.tail) + ([')'] + t);
    assert PrintAll(ns) + ([')'] + t) == head + ([','] + rest);
  }

  /** The arguments, if there is room for them from the `i`-th attribute on. */
  function Room(ns: Names, i: nat): Option<seq<Arg>> {
    if i + Count(ns) < MAX_ATTRS then Some(Texts(ns)) else None
  }

  lemma RoomForMore(ns: Names, i: nat)
    requires ns.Cons?
    ensures var a := Arg(Print(ns.head), ns.head.args.Nil? && AllDigits(ns.head.word));
      && (ns.tail.Nil? ==> Room(ns, i) == if i + 1 < MAX_ATTRS then Some([a]) else None)
      && (ns.tail.Cons? ==> Room(ns, i) == if i + 1 < MAX_ATTRS then Prepend(a, Room(ns.tail, i + 1)) else None)
  {
    var a := Arg(Print(ns.head), ns.head.args.Nil? && AllDigits(ns.head.word));
    if ns.tail.Nil? {
      assert Count(ns.tail) == 0 && Texts(ns.tail) == [] && [a] + Texts(ns.tail) == [a];
    }
  }

  lemma {:induction false} LastArg(ns: Names, t: string, i: nat, s: string)
    requires NamesOk(ns) && ns.Cons? && ns.tail.Nil? && s == PrintAll(ns) + ([')'] + t)
    ensures ParseArgs(s, i) == Room(ns, i)
  {
    LastShape(ns, t);
    OneArgOf(ns.head, [')'] + t);
    AfterArg(s, i, Arg(Print(ns.head), ns.head.args.Nil? && AllDigits(ns.head.word)));
    RoomForMore(ns, i);
  }

  lemma {:induction false} FirstArg(ns: Names, t: string, i: nat, s: string, rest: string)
    requires NamesOk(ns) && ns.Cons? && ns.tail.Cons? && s == PrintAll(ns) + ([')'] + t)
    requires rest == PrintAll(ns.tail) + ([')'] + t)
    requires i + 1 < MAX_ATTRS ==> ParseArgs(rest, i + 1) == Room(ns.tail, i + 1)
    ensures ParseArgs(s, i) == Room(ns, i)
  {
    ListShape(ns, t);
    OneArgOf(ns.head, [','] + rest);
    AfterArg(s, i, Arg(Print(ns.head), ns.head.args.Nil? && AllDigits(ns.head.word)));
    RoomForMore(ns, i);
  }

  lemma {:induction false} ParseArgsOf(ns: Names, t: string, i: nat)
    requires NamesOk(ns) && ns.Cons? && i < MAX_ATTRS
    ensures ParseArgs(PrintAll(ns) + ([')'] + t), i) == Room(ns, i)
    decreases ns
  {
    if ns.tail.Nil? {
      LastArg(ns, t, i, PrintAll(ns) + ([')'] + t));
    } else {
      if i + 1 < MAX_ATTRS {
        ParseArgsOf(ns.tail, t, i + 1);
      }
      FirstArg(ns, t, i, PrintAll(ns) + ([')'] + t), PrintAll(ns.tail) + ([')'] + t));
    }
  }

  lemma NameShape(n: Name, t: string)
    requires n.args.Cons?
    ensures var rest := PrintAll(n.args) + ([')'] + t);
      && Print(n) + t == n.word + (['('] + rest)
      && (Print(n) + t)[..|n.word|] == n.word && (Print(n) + t)[|n.word|] == '('
      && (Print(n) + t)[|n.word| + 1..] == rest
  {
    var rest := PrintAll(n.args) + ([')'] + t);
    assert Print(n) + t == n.word + (['('] + rest);
  }

  /** Taking a printed name apart gives back its template and its arguments, for
      every nesting and any text after it, if it has fewer arguments than there are
      attributes; otherwise it is refused. */
  lemma {:induction false} RoundTrip(n: Name, t: string)
    requires NameOk(n) && n.args.Cons?
    ensures Parse(Print(n) + t) == if Count(n.args) < MAX_ATTRS then Some(Parsed(n.word, Texts(n.args))) else None
  {
    var rest := PrintAll(n.args) + ([')'] + t);
    NameShape(n, t);
    WordLenOf(n.word, ['('] + rest);
    ParseArgsOf(n.args, t, 0);
  }

  lemma {:induction false} ListLength(ns: Names)
    requires NamesOk(ns) && ns.Cons?
    ensures |PrintAll(ns)| >= 2 * Count(ns) - 1
    decreases ns
  {
    if ns.tail.Cons? {
      ListLength(ns.tail);
    }
  }

  /** Every name a template builds is short enough to be taken apart again. */
  lemma InstanceParses(tmpl: string, args: Names, s: string)
    requires NameOk(Name(tmpl, args)) && args.Cons? && Instance(tmpl, args) == Some(s)
    ensures Parse(s) == Some(Parsed(tmpl, Texts(args)))
  {
    ListLength(args);
    assert s == Print(Name(tmpl, args)) + "";
    RoundTrip(Name(tmpl, args), "");
  }

  // ---- The scan -------------------------------------------------------------------------

  /** The character at a position of a terminated string. */
  function At(s: string, p: nat): char {
    if p < |s| then s[p] else '\0'
  }

  /** The loop over word characters, noting whether one is not a digit. */
  method ScanWord(s: string, from: nat) returns (p: nat, notNum: bool)
    requires from <= |s|
    ensures p == from + WordLen(s[from..]) <= |s|
    ensures notNum == !AllDigits(s[from..p])
  {
    p, notNum := from, false;
    while IsWord(At(s, p))
      invariant from <= p <= |s| && p + WordLen(s[p..]) == from + WordLen(s[from..])
      invariant notNum == !AllDigits(s[from..p])
      decreases |s| - p
    {
      DigitsAppend(s[from..p], s[p]);
      assert s[from..p + 1] == s[from..p] + [s[p]];
      notNum := notNum || !IsDigit(s[p]);
      assert s[p..][1..] == s[p + 1..];
      p := p + 1;
    }
  }

  lemma {:induction false} DigitsAppend(s: string, c: char)
    ensures AllDigits(s + [c]) <==> AllDigits(s) && IsDigit(c)
  {
    if s == [] {
      assert s + [c] == [c] && [c][1..] == [];
    } else {
      assert (s + [c])[1..] == s[1..] + [c];
      DigitsAppend(s[1..], c);
    }
  }

  /** The loop over a nested list, from its opening parenthesis; it stops on the
      matching one or at the end of the name. */
  method ScanList(s: string, open: nat) returns (ok: bool, p: nat)
    requires open < |s| && s[open] == '('
    ensures ok <==> CloseLen(s[open + 1..], 0).Some?
    ensures ok ==> p == open + CloseLen(s[open + 1..], 0).value < |s|
  {
    var recursion: nat := 0;
    p := open;
    while true
      invariant open <= p < |s|
      invariant CloseLen(s[open + 1..], 0) == Shifted(p - open, CloseLen(s[p + 1..], recursion))
      decreases |s| - p
    {
      p := p + 1;
      if p == |s| {
        return false, p;
      }
      assert s[p..][1..] == s[p + 1..];
      if s[p] == '(' {
        recursion := recursion + 1;
      } else if s[p] == ')' {
        if recursion == 0 {
          return true, p;
        }
        recursion := recursion - 1;
      }
    }
  }

  /** One argument, from its first character to the one after it. */
  method ScanArg(s: string, from: nat) returns (r: Option<Arg>)
    requires from <= |s|
    ensures r == OneArg(s[from..])
  {
    var p, notNum := ScanWord(s, from);
    assert s[from..][..p - from] == s[from..p];
    if At(s, p) == '(' {
      assert s[from..][p - from] == s[p] && s[from..][p - from + 1..] == s[p + 1..];
      var ok, q := ScanList(s, p);
      if !ok {
        return None;
      }
      notNum := true;
      p := q + 1;
      assert s[from..][..p - from] == s[from..p];
    }
    if p == from {
      return None;
    }
    return Some(Arg(s[from..p], !notNum));
  }

  /** The arguments read so far, then those still to come, are all of them. */
  predicate Filled(all: Option<seq<Arg>>, done: seq<Arg>, rest: Option<seq<Arg>>) {
    all == if rest.None? then None else Some(done + rest.value)
  }

  lemma FilledStart(all: Option<seq<Arg>>)
    ensures Filled(all, [], all)
  {
    if all.Some? {
      assert [] + all.value == all.value;
    }
  }

  /** How the arguments still to come decide about all of them. */
  lemma FilledCases(all: Option<seq<Arg>>, done: seq<Arg>, now: Option<seq<Arg>>, next: Option<seq<Arg>>, a: Arg)
    requires Filled(all, done, now)
    ensures now.None? ==> all.None?
    ensures now == Some([a]) ==> all == Some(done + [a])
    ensures now == Prepend(a, next) ==> Filled(all, done + [a], next)
  {
    if next.Some? {
      assert done + ([a] + next.value) == (done + [a]) + next.value;
    }
  }

  /** What the character after an argument at `p` decides. */
  lemma {:induction false} NextArg(s: string, p: nat, i: nat, a: Arg)
    requires p <= |s| && OneArg(s[p..]) == Some(a)
    ensures var q := p + |a.text|;
      && q <= |s|
      && (i + 1 >= MAX_ATTRS || (At(s, q) != ')' && At(s, q) != ',') ==> ParseArgs(s[p..], i).None?)
      && (i + 1 < MAX_ATTRS && At(s, q) == ')' ==> ParseArgs(s[p..], i) == Some([a]))
      && (i + 1 < MAX_ATTRS && At(s, q) == ',' ==>
            q < |s| && ParseArgs(s[p..], i) == Prepend(a, ParseArgs(s[q + 1..], i + 1)))
  {
    var q := p + |a.text|;
    AfterArg(s[p..], i, a);
    if q < |s| {
      assert s[p..][q - p] == s[q] && s[p..][q - p + 1..] == s[q + 1..];
    }
  }

  /** The state of the attribute loop. */
  predicate Reading(all: Option<seq<Arg>>, done: seq<Arg>, s: string, p: nat, i: nat) {
    p <= |s| && Filled(all, done, ParseArgs(s[p..], i))
  }

  lemma {:induction false} ReadingEnds(all: Option<seq<Arg>>, done: seq<Arg>, s: string, p: nat, i: nat, a: Arg)
    requires Reading(all, done, s, p, i) && OneArg(s[p..]) == Some(a)
    ensures var q := p + |a.text|;
      && q <= |s|
      && (i + 1 >= MAX_ATTRS || (At(s, q) != ')' && At(s, q) != ',') ==> all.None?)
      && (i + 1 < MAX_ATTRS && At(s, q) == ')' ==> all == Some(done + [a]))
  {
    NextArg(s, p, i, a);
    FilledCases(all, done, ParseArgs(s[p..], i), None, a);
  }

  lemma {:induction false} ReadingGoesOn(all: Option<seq<Arg>>, done: seq<Arg>, s: string, p: nat, i: nat, a: Arg)
    requires Reading(all, done, s, p, i) && OneArg(s[p..]) == Some(a) && i + 1 < MAX_ATTRS
    requires At(s, p + |a.text|) == ','
    ensures Reading(all, done + [a], s, p + |a.text| + 1, i + 1)
  {
    NextArg(s, p, i, a);
    FilledCases(all, done, ParseArgs(s[p..], i), ParseArgs(s[p + |a.text| + 1..], i + 1), a);
  }

  /** What an argument leads to: an error, the end of the list, or more. */
  datatype Outcome = Bad | Last | More(at: nat)

  method Next(s: string, p: nat, i: nat, a: Arg, ghost all: Option<seq<Arg>>, ghost done: seq<Arg>) returns (o: Outcome)
    requires Reading(all, done, s, p, i) && OneArg(s[p..]) == Some(a)
    ensures o.Bad? ==> all.None?
    ensures o.Last? ==> i + 1 < MAX_ATTRS && all == Some(done + [a])
    ensures o.More? ==> i + 1 < MAX_ATTRS && p < o.at && Reading(all, done + [a], s, o.at, i + 1)
  {
    ReadingEnds(all, done, s, p, i, a);
    var q := p + |a.text|;
    if i + 1 >= MAX_ATTRS {
      return Bad;
    }
    if At(s, q) == ')' {
      return Last;
    }
    if At(s, q) != ',' {
      return Bad;
    }
    ReadingGoesOn(all, done, s, p, i, a);
    return More(q + 1);
  }

  lemma ReadingFails(all: Option<seq<Arg>>, done: seq<Arg>, s: string, p: nat, i: nat)
    requires Reading(all, done, s, p, i) && OneArg(s[p..]).None?
    ensures all.None?
  {
  }

  /** One argument goes into its attribute. */
  method ReadArg(s: string, p: nat, i: nat, attrs: array<Arg>, ghost all: Option<seq<Arg>>) returns (o: Outcome)
    requires attrs.Length == MAX_ATTRS && i < MAX_ATTRS && Reading(all, attrs[..i], s, p, i)
    modifies attrs
    ensures o.Bad? ==> all.None?
    ensures o.Last? ==> i + 1 < MAX_ATTRS && all == Some(attrs[..i + 1])
    ensures o.More? ==> i + 1 < MAX_ATTRS && p < o.at && Reading(all, attrs[..i + 1], s, o.at, i + 1)
  {
    ghost var done := attrs[..i];
    var a := ScanArg(s, p);
    if a.None? {
      ReadingFails(all, done, s, p, i);
      return Bad;
    }
    attrs[i] := a.value;
    assert attrs[..i + 1] == done + [a.value];
    o := Next(s, p, i, a.value, all, done);
  }

  lemma ReadingStart(s: string, from: nat)
    requires from <= |s|
    ensures Reading(ParseArgs(s[from..], 0), [], s, from, 0)
  {
    FilledStart(ParseArgs(s[from..], 0));
  }

  /** The attribute loop: it fills at most the attributes there are. */
  method ScanArgs(s: string, from: nat, attrs: array<Arg>) returns (n: Option<nat>)
    requires from <= |s| && attrs.Length == MAX_ATTRS
    modifies attrs
    ensures n.Some? ==> 1 <= n.value < MAX_ATTRS
    ensures ParseArgs(s[from..], 0) == if n.None? then None else Some(attrs[..n.value])
  {
    ghost var all := ParseArgs(s[from..], 0);
    ReadingStart(s, from);
    var i, p := 0, from;
    assert attrs[..0] == [];
    while true
      invariant i < MAX_ATTRS && Reading(all, attrs[..i], s, p, i)
      decreases |s| - p
    {
      var o := ReadArg(s, p, i, attrs, all);
      match o {
        case Bad => return None;
        case Last => return Some(i + 1);
        case More(at) => i, p := i + 1, at;
      }
    }
  }

  /** The parser of `cryptomgr_schedule_probe`; it always ends. */
  method ScheduleProbe(name: string) returns (r: Option<Parsed>)
    ensures r == Parse(name)
  {
    var p, _ := ScanWord(name, 0);
    assert name[0..] == name;
    if p == 0 || At(name, p) != '(' {
      return None;
    }
    var attrs := new Arg[MAX_ATTRS](_ => Arg("", false));
    var n := ScanArgs(name, p + 1, attrs);
    if n.None? {
      return None;
    }
    return Some(Parsed(name[..p], attrs[..n.value]));
  }
}
