/**
  Interface texts with numbered slots: splitting a pattern, formatting it, and recognising a formatted text again by
  lazy matching, so that it can be formatted in the other language.
 */
module UiLanguage {
  import opened Option

  /** A slot `{name}` of digits, and the literal text up to the next slot. */
  datatype Hole = Hole(name: string, after: string)
  datatype Template = Template(head: string, holes: seq<Hole>)

  predicate Digit(c: char) { '0' <= c <= '9' }

  function DigitRun(s: string): (n: nat)
    ensures n <= |s| && forall i :: 0 <= i < n ==> Digit(s[i])
  {
    if s == "" || !Digit(s[0]) then 0 else 1 + DigitRun(s[1..])
  }

  /** The length of the slot at the start of s, 0 when there is none. */
  function SlotLength(s: string): (n: nat)
    ensures n <= |s| && (n > 0 ==> n >= 3 && s[0] == '{' && s[n - 1] == '}')
  {
    if s == "" || s[0] != '{' then 0
    else
      var n := DigitRun(s[1..]);
      if n > 0 && n + 1 < |s| && s[n + 1] == '}' then n + 2 else 0
  }

  /** split(/(\{\d+\})/g): literals and slots alternate; literals may be empty. */
  function Split(s: string): Template {
    if s == "" then Template("", [])
    else
      var n := SlotLength(s);
      if n > 0 then
        var rest := Split(s[n..]);
        Template("", [Hole(s[1..n - 1], rest.head)] + rest.holes)
      else
        var rest := Split(s[1..]);
        Template([s[0]] + rest.head, rest.holes)
  }

  function Number(digits: string): int {
    if digits == "" then 0 else Number(digits[..|digits| - 1]) * 10 + (digits[|digits| - 1] as int - '0' as int)
  }

  /** head, then each argument followed by the literal after its slot. */
  function Fill(head: string, holes: seq<Hole>, args: seq<string>): string
    requires |args| == |holes|
    decreases |holes|
  {
    if holes == [] then head else head + args[0] + Fill(holes[0].after, holes[1..], args[1..])
  }

  function SlotTexts(holes: seq<Hole>): (r: seq<string>)
    ensures |r| == |holes|
  {
    seq(|holes|, i requires 0 <= i < |holes| => "{" + holes[i].name + "}")
  }

  lemma FillCons(head: string, hole: Hole, holes: seq<Hole>, arg: string, args: seq<string>)
    requires |args| == |holes|
    ensures Fill(head, [hole] + holes, [arg] + args) == head + arg + Fill(hole.after, holes, args)
  {
    assert ([hole] + holes)[1..] == holes && ([arg] + args)[1..] == args;
  }

  function Whole(t: Template): string { Fill(t.head, t.holes, SlotTexts(t.holes)) }

  lemma WholeOfSlot(name: string, rest: Template)
    ensures Whole(Template("", [Hole(name, rest.head)] + rest.holes)) == "{" + name + "}" + Whole(rest)
  {
    var hole := Hole(name, rest.head);
    assert SlotTexts([hole] + rest.holes) == ["{" + name + "}"] + SlotTexts(rest.holes);
    FillCons("", hole, rest.holes, "{" + name + "}", SlotTexts(rest.holes));
    assert "" + ("{" + name + "}") == "{" + name + "}";
  }

  lemma WholeOfChar(c: char, rest: Template)
    ensures Whole(Template([c] + rest.head, rest.holes)) == [c] + Whole(rest)
  {
    FillHead([c], rest.head, rest.holes, SlotTexts(rest.holes));
  }

  /** Splitting loses nothing. */
  lemma {:induction false} FillSplit(s: string)
    ensures Whole(Split(s)) == s
  {
    if s != "" {
      hide Whole, SlotLength;
      var n := SlotLength(s);
      if n > 0 {
        FillSplit(s[n..]);
        WholeOfSlot(s[1..n - 1], Split(s[n..]));
        SlotText(s, n);
      } else {
        FillSplit(s[1..]);
        WholeOfChar(s[0], Split(s[1..]));
      }
    }
  }

  lemma SlotText(s: string, n: int)
    requires 3 <= n <= |s| && s[0] == '{' && s[n - 1] == '}'
    ensures "{" + s[1..n - 1] + "}" + s[n..] == s
  {
  }

  lemma FillHead(a: string, b: string, holes: seq<Hole>, args: seq<string>)
    requires |args| == |holes|
    ensures Fill(a + b, holes, args) == a + Fill(b, holes, args)
  {
    if holes != [] {
      assert (a + b) + args[0] == a + (b + args[0]);
    }
  }

  // ---------------------------------------------------------------- lazy matching

  /** Matches a literal, then lazily every slot with the literal after it, up to the end of v. */
  function Match(head: string, holes: seq<Hole>, v: string): Option<seq<string>>
    decreases |holes|, 1, 0
  {
    if !(head <= v) then None
    else if holes == [] then (if v == head then Some([]) else None)
    else Lazy(holes, v[|head|..], 0)
  }

  /** The first slot captures the shortest prefix of at least k characters with which the rest matches. */
  function Lazy(holes: seq<Hole>, v: string, k: nat): Option<seq<string>>
    requires holes != [] && k <= |v|
    decreases |holes|, 0, |v| - k
  {
    match Match(holes[0].after, holes[1..], v[k..])
    case Some(rest) => Some([v[..k]] + rest)
    case None => if k < |v| then Lazy(holes, v, k + 1) else None
  }

  /** Putting the captures back gives the input. */
  lemma {:induction false} MatchIsSound(head: string, holes: seq<Hole>, v: string)
    requires Match(head, holes, v).Some?
    ensures |Match(head, holes, v).value| == |holes|
    ensures Fill(head, holes, Match(head, holes, v).value) == v
    decreases |holes|, 1, 0
  {
    if holes != [] {
      LazyIsSound(holes, v[|head|..], 0);
      var caps := Match(head, holes, v).value;
      assert v == head + v[|head|..];
      assert head + (caps[0] + Fill(holes[0].after, holes[1..], caps[1..]))
          == head + caps[0] + Fill(holes[0].after, holes[1..], caps[1..]);
    }
  }

  lemma {:induction false} LazyIsSound(holes: seq<Hole>, v: string, k: nat)
    requires holes != [] && k <= |v| && Lazy(holes, v, k).Some?
    ensures var caps := Lazy(holes, v, k).value;
            |caps| == |holes| && v == caps[0] + Fill(holes[0].after, holes[1..], caps[1..])
    decreases |holes|, 0, |v| - k
  {
    if Match(holes[0].after, holes[1..], v[k..]).Some? {
      MatchIsSound(holes[0].after, holes[1..], v[k..]);
      assert v == v[..k] + v[k..];
    } else {
      LazyIsSound(holes, v, k + 1);
    }
  }

  /** Every instance of a pattern is matched. */
  lemma {:induction false} MatchIsComplete(head: string, holes: seq<Hole>, args: seq<string>)
    requires |args| == |holes|
    ensures Match(head, holes, Fill(head, holes, args)).Some?
    decreases |holes|, 1, 0
  {
    if holes != [] {
      var v := Fill(head, holes, args);
      var tail := args[0] + Fill(holes[0].after, holes[1..], args[1..]);
      assert v == head + tail;
      assert v[|head|..] == tail;
      LazyIsComplete(holes, tail, 0, args);
    }
  }

  lemma {:induction false} LazyIsComplete(holes: seq<Hole>, v: string, k: nat, args: seq<string>)
    requires holes != [] && |args| == |holes| && k <= |args[0]|
    requires v == args[0] + Fill(holes[0].after, holes[1..], args[1..])
    ensures Lazy(holes, v, k).Some?
    decreases |holes|, 0, |v| - k
  {
    if k == |args[0]| {
      assert v[k..] == Fill(holes[0].after, holes[1..], args[1..]);
      MatchIsComplete(holes[0].after, holes[1..], args[1..]);
    } else {
      LazyIsComplete(holes, v, k + 1, args);
    }
  }

  /** The literal after each slot but the last is non-empty and first occurs right after that slot's argument. */
  predicate Determined(holes: seq<Hole>, args: seq<string>)
    requires |args| == |holes|
  {
    |holes| <= 1 ||
    var lit := holes[0].after;
    && lit != ""
    && (forall k :: 0 <= k < |args[0]| ==>
          !(lit <= (args[0] + Fill(lit, holes[1..], args[1..]))[k..]))
    && Determined(holes[1..], args[1..])
  }

  /** Then matching recovers exactly the arguments. */
  lemma {:induction false} MatchIsExact(head: string, holes: seq<Hole>, args: seq<string>)
    requires |args| == |holes| && Determined(holes, args)
    ensures Match(head, holes, Fill(head, holes, args)) == Some(args)
    decreases |holes|, 1, 0
  {
    if holes != [] {
      var v := Fill(head, holes, args);
      var tail := args[0] + Fill(holes[0].after, holes[1..], args[1..]);
      assert v == head + tail;
      assert v[|head|..] == tail;
      LazyIsExact(holes, tail, 0, args);
    }
  }

  lemma {:induction false} LazyIsExact(holes: seq<Hole>, v: string, k: nat, args: seq<string>)
    requires holes != [] && |args| == |holes| && k <= |args[0]| && Determined(holes, args)
    requires v == args[0] + Fill(holes[0].after, holes[1..], args[1..])
    ensures Lazy(holes, v, k) == Some(args)
    decreases |holes|, 0, |v| - k
  {
    var lit := holes[0].after;
    if k == |args[0]| {
      assert v[k..] == Fill(lit, holes[1..], args[1..]) && v[..k] == args[0];
      MatchIsExact(lit, holes[1..], args[1..]);
      assert [args[0]] + args[1..] == args;
    } else {
      if |holes| == 1 {
        assert |v[k..]| > |lit|;
      }
      assert Match(lit, holes[1..], v[k..]).None?;
      LazyIsExact(holes, v, k + 1, args);
    }
  }

  // ---------------------------------------------------------------- formatting by slot number

  type Values = map<int, string>

  /** A value that was never set prints as `undefined`. */
  function ValueOf(values: Values, name: string): string {
    if Number(name) in values then values[Number(name)] else "undefined"
  }

  function Arguments(holes: seq<Hole>, values: Values): (r: seq<string>)
    ensures |r| == |holes|
  {
    seq(|holes|, i requires 0 <= i < |holes| => ValueOf(values, holes[i].name))
  }

  /** replace(/\{(\d+)\}/g, ...) on an already translated text. */
  function FormatText(text: string, values: Values): string {
    var t := Split(text);
    Fill(t.head, t.holes, Arguments(t.holes, values))
  }

  /** values[slot] = match[i + 1] for every slot in turn: a repeated slot keeps its last capture. */
  function Collect(holes: seq<Hole>, caps: seq<string>): Values
    requires |caps| == |holes|
    decreases |holes|
  {
    if holes == [] then map[]
    else
      var n := |holes| - 1;
      Collect(holes[..n], caps[..n])[Number(holes[n].name) := caps[n]]
  }

  /** Slots of the same number captured the same text. */
  predicate Agree(holes: seq<Hole>, caps: seq<string>)
    requires |caps| == |holes|
  {
    forall i, j :: 0 <= i < j < |holes| && Number(holes[i].name) == Number(holes[j].name) ==> caps[i] == caps[j]
  }

  predicate Distinct(holes: seq<Hole>) {
    forall i, j :: 0 <= i < j < |holes| ==> Number(holes[i].name) != Number(holes[j].name)
  }

  lemma {:induction false} CollectLast(holes: seq<Hole>, caps: seq<string>, i: int)
    requires |caps| == |holes| && 0 <= i < |holes|
    ensures var values := Collect(holes, caps);
            && Number(holes[i].name) in values
            && exists j :: i <= j < |holes| && Number(holes[j].name) == Number(holes[i].name)
                           && values[Number(holes[i].name)] == caps[j]
    decreases |holes|
  {
    var n := |holes| - 1;
    if i < n && Number(holes[n].name) != Number(holes[i].name) {
      CollectLast(holes[..n], caps[..n], i);
      var j :| i <= j < n && Number(holes[..n][j].name) == Number(holes[i].name)
               && Collect(holes[..n], caps[..n])[Number(holes[i].name)] == caps[..n][j];
      assert holes[j] == holes[..n][j];
    }
  }

  lemma {:induction false} CollectKeys(holes: seq<Hole>, caps: seq<string>, k: int)
    requires |caps| == |holes|
    ensures k in Collect(holes, caps) <==> exists i :: 0 <= i < |holes| && Number(holes[i].name) == k
    decreases |holes|
  {
    if holes != [] {
      var n := |holes| - 1;
      CollectKeys(holes[..n], caps[..n], k);
      if k in Collect(holes[..n], caps[..n]) {
        var i :| 0 <= i < n && Number(holes[..n][i].name) == k;
        assert Number(holes[i].name) == k;
      }
      if i :| 0 <= i < |holes| && Number(holes[i].name) == k {
        assert i < n ==> holes[..n][i] == holes[i];
      }
    }
  }

  /** The collected values are the captures exactly when repeated slots agree. */
  lemma CollectedIffAgree(holes: seq<Hole>, caps: seq<string>)
    requires |caps| == |holes|
    ensures Arguments(holes, Collect(holes, caps)) == caps <==> Agree(holes, caps)
  {
    var values := Collect(holes, caps);
    var args := Arguments(holes, values);
    if Agree(holes, caps) {
      forall i | 0 <= i < |holes|
        ensures args[i] == caps[i]
      {
        CollectLast(holes, caps, i);
      }
    }
    if args == caps {
      assert forall i :: 0 <= i < |holes| ==> args[i] == ValueOf(values, holes[i].name);
    }
  }

  /** For distinct slots, formatting the pattern itself with what was captured gives the input back. */
  lemma MatchThenFormat(pattern: string, v: string)
    requires Distinct(Split(pattern).holes) && Match(Split(pattern).head, Split(pattern).holes, v).Some?
    ensures var t := Split(pattern);
            var m := Match(t.head, t.holes, v);
            |m.value| == |t.holes| && FormatText(pattern, Collect(t.holes, m.value)) == v
  {
    var t := Split(pattern);
    MatchIsSound(t.head, t.holes, v);
    CollectedIffAgree(t.holes, Match(t.head, t.holes, v).value);
  }

  /** A later hole has the same number, so that its capture replaces this one's. */
  predicate Superseded(holes: seq<Hole>, i: int) {
    0 <= i < |holes| && exists j :: i < j < |holes| && Number(holes[j].name) == Number(holes[i].name)
  }

  /** One slot may occur twice, every other once. */
  predicate RepeatsOnce(holes: seq<Hole>) {
    forall i, j :: 0 <= i < j < |holes| ==> !(Superseded(holes, i) && Superseded(holes, j))
  }

  /** Arguments that differ in one place fill differently. */
  lemma {:induction false} FillCancels(head: string, holes: seq<Hole>, a: seq<string>, b: seq<string>, p: int)
    requires |a| == |b| == |holes| && 0 <= p < |holes|
    requires forall i :: 0 <= i < |holes| && i != p ==> a[i] == b[i]
    requires Fill(head, holes, a) == Fill(head, holes, b)
    ensures a == b
    decreases |holes|
  {
    var x, y := Fill(holes[0].after, holes[1..], a[1..]), Fill(holes[0].after, holes[1..], b[1..]);
    if p == 0 {
      assert a[1..] == b[1..];
      SameMiddle(head, a[0], b[0], x);
      assert a == [a[0]] + a[1..] && b == [b[0]] + b[1..];
    } else {
      assert x == (head + a[0] + x)[|head + a[0]|..] && y == (head + b[0] + y)[|head + b[0]|..];
      FillCancels(holes[0].after, holes[1..], a[1..], b[1..], p - 1);
      assert a == [a[0]] + a[1..] && b == [b[0]] + b[1..];
    }
  }

  lemma SameMiddle(head: string, a: string, b: string, tail: string)
    requires head + a + tail == head + b + tail
    ensures a == b
  {
    assert |a| == |b|;
    assert a == (head + a + tail)[|head|..|head| + |a|] && b == (head + b + tail)[|head|..|head| + |b|];
  }

  lemma LastCaptureIsKept(holes: seq<Hole>, caps: seq<string>, i: int)
    requires |caps| == |holes| && 0 <= i < |holes| && !Superseded(holes, i)
    ensures Arguments(holes, Collect(holes, caps))[i] == caps[i]
  {
    CollectLast(holes, caps, i);
  }

  /** With at most one slot repeated, and that once, formatting what was captured gives the input iff the captures agree. */
  lemma FormatIffAgree(pattern: string, v: string)
    requires RepeatsOnce(Split(pattern).holes) && Match(Split(pattern).head, Split(pattern).holes, v).Some?
    ensures var t := Split(pattern);
            var caps := Match(t.head, t.holes, v).value;
            |caps| == |t.holes| && (FormatText(pattern, Collect(t.holes, caps)) == v <==> Agree(t.holes, caps))
  {
    var t := Split(pattern);
    MatchIsSound(t.head, t.holes, v);
    var caps := Match(t.head, t.holes, v).value;
    var args := Arguments(t.holes, Collect(t.holes, caps));
    CollectedIffAgree(t.holes, caps);
    hide Match, Fill, Collect, Superseded, Split, Agree, Number;
    if Fill(t.head, t.holes, args) == v && args != caps {
      var p :| 0 <= p < |t.holes| && args[p] != caps[p];
      forall i | 0 <= i < |t.holes| && i != p
        ensures args[i] == caps[i]
      {
        if !Superseded(t.holes, p) {
          LastCaptureIsKept(t.holes, caps, p);
        } else {
          LastCaptureIsKept(t.holes, caps, i);
        }
      }
      FillCancels(t.head, t.holes, args, caps, p);
    }
  }

  /** For any repetitions, provided the text formatted from the collected values determines them. */
  lemma DeterminedFormatIffAgree(pattern: string, v: string)
    requires var t := Split(pattern);
             var m := Match(t.head, t.holes, v);
             m.Some? && |m.value| == |t.holes| && Determined(t.holes, Arguments(t.holes, Collect(t.holes, m.value)))
    ensures var t := Split(pattern);
            var caps := Match(t.head, t.holes, v).value;
            FormatText(pattern, Collect(t.holes, caps)) == v <==> Agree(t.holes, caps)
  {
    var t := Split(pattern);
    MatchIsSound(t.head, t.holes, v);
    var caps := Match(t.head, t.holes, v).value;
    CollectedIffAgree(t.holes, caps);
    MatchIsExact(t.head, t.holes, Arguments(t.holes, Collect(t.holes, caps)));
  }

  /**
    Without either condition, captures that disagree may still format to the input: "{0}{0},{0}" captures nothing, "bb"
    and "b" from "bb,b", and three times "b" is "bb,b" again.
   */
  lemma DisagreeingCapturesMayFit()
    ensures var t := Split("{0}{0},{0}");
            var m := Match(t.head, t.holes, "bb,b");
            && m == Some(["", "bb", "b"]) && |t.holes| == 3 && !Agree(t.holes, m.value)
            && FormatText("{0}{0},{0}", Collect(t.holes, m.value)) == "bb,b"
  {
    var holes := [Hole("0", ""), Hole("0", ","), Hole("0", "")];
    SplitOfThrice();
    MatchesThrice(holes);
    DisagreeingCollected(holes);
    hide Fill, Match, Collect, Split, Arguments, Agree;
  }

  lemma DisagreeingCollected(holes: seq<Hole>)
    requires holes == [Hole("0", ""), Hole("0", ","), Hole("0", "")]
    ensures !Agree(holes, ["", "bb", "b"])
    ensures Fill("", holes, Arguments(holes, Collect(holes, ["", "bb", "b"]))) == "bb,b"
  {
    CollectsLastOfThree(holes, "", "bb", "b");
    FillsThrice("b", "b", "b");
    hide Fill, Collect;
    var caps := ["", "bb", "b"];
    assert |caps[0]| != |caps[1]| && Number(holes[0].name) == Number(holes[1].name);
    assert Arguments(holes, Collect(holes, caps)) == ["b", "b", "b"];
    assert "b" + "b" + "," + "b" == "bb,b";
  }

  lemma SplitZeroSlot(rest: string)
    ensures Split("{0}" + rest) == Template("", [Hole("0", Split(rest).head)] + Split(rest).holes)
  {
    var s := "{0}" + rest;
    assert s[1..] == "0}" + rest && s[2] == '}';
    assert DigitRun(s[2..]) == 0;
    assert s[1..][1..] == s[2..];
    assert SlotLength(s) == 3 && s[1..2] == "0" && s[3..] == rest;
  }

  lemma SplitOther(c: char, rest: string)
    requires c != '{'
    ensures Split([c] + rest) == Template([c] + Split(rest).head, Split(rest).holes)
  {
    assert ([c] + rest)[1..] == rest;
  }

  lemma SplitNothing()
    ensures Split("") == Template("", [])
  {
  }

  lemma SplitOfThrice()
    ensures Split("{0}{0},{0}") == Template("", [Hole("0", ""), Hole("0", ","), Hole("0", "")])
  {
    hide SlotLength, DigitRun, Split;
    SplitNothing();
    SplitZeroSlot("");
    SplitOther(',', "{0}");
    SplitZeroSlot(",{0}");
    SplitZeroSlot("{0},{0}");
    assert "{0}" + "" == "{0}" && [','] + "{0}" == ",{0}" && [','] + "" == ",";
    assert "{0}" + ",{0}" == "{0},{0}" && "{0}" + "{0},{0}" == "{0}{0},{0}";
  }

  lemma FillsThrice(a: string, b: string, c: string)
    ensures Fill("", [Hole("0", ""), Hole("0", ","), Hole("0", "")], [a, b, c]) == a + b + "," + c
    ensures Fill("", [Hole("0", ","), Hole("0", "")], [b, c]) == b + "," + c
  {
    var holes := [Hole("0", ""), Hole("0", ","), Hole("0", "")];
    assert holes == [holes[0]] + holes[1..] && holes[1..] == [holes[1]] + holes[2..] && holes[2..] == [holes[2]] + [];
    assert [a, b, c] == [a] + [b, c] && [b, c] == [b] + [c] && [c] == [c] + [];
    FillCons("", holes[0], holes[1..], a, [b, c]);
    FillCons("", holes[1], holes[2..], b, [c]);
    FillCons(",", holes[2], [], c, []);
    assert Fill("", [], []) == "";
    assert "" + b + ("," + c + "") == b + "," + c;
    assert "" + a + (b + "," + c) == a + b + "," + c;
    assert holes[1..] == [Hole("0", ","), Hole("0", "")];
  }

  lemma FillOfLast(arg: string)
    ensures Fill(",", [Hole("0", "")], [arg]) == "," + arg
  {
    FillCons(",", Hole("0", ""), [], arg, []);
    assert [Hole("0", "")] == [Hole("0", "")] + [] && [arg] == [arg] + [];
    assert Fill("", [], []) == "" && "," + arg + "" == "," + arg;
  }

  lemma MatchesLastTwo(rest: seq<Hole>)
    requires rest == [Hole("0", ","), Hole("0", "")]
    ensures Match("", rest, "bb,b") == Some(["bb", "b"])
  {
    FillsThrice("", "bb", "b");
    FillOfLast("b");
    assert rest[1..] == [Hole("0", "")] && ["bb", "b"][1..] == ["b"];
    assert "bb" + "," + "b" == "bb,b" && "," + "b" == ",b";
    assert forall k :: 0 <= k < |"bb"| ==> ("bb" + ",b")[k..][0] == 'b';
    hide Fill, Match;
    assert Determined(rest[1..], ["b"]);
    MatchIsExact("", rest, ["bb", "b"]);
  }

  /** The first slot takes nothing, after which the other two are determined. */
  lemma MatchesThrice(holes: seq<Hole>)
    requires holes == [Hole("0", ""), Hole("0", ","), Hole("0", "")]
    ensures Match("", holes, "bb,b") == Some(["", "bb", "b"])
  {
    MatchesLastTwo(holes[1..]);
    assert "bb,b"[0..] == "bb,b" && "bb,b"[..0] == "" && "bb,b"[|""|..] == "bb,b";
    assert [""] + ["bb", "b"] == ["", "bb", "b"];
  }

  lemma CollectsLastOfThree(holes: seq<Hole>, a: string, b: string, c: string)
    requires holes == [Hole("0", ""), Hole("0", ","), Hole("0", "")]
    ensures var values := Collect(holes, [a, b, c]); 0 in values && values[0] == c && Number("0") == 0
  {
    assert Number("0") == Number("") * 10 + ('0' as int - '0' as int);
    assert Collect(holes, [a, b, c]) == Collect(holes[..2], [a, b, c][..2])[Number(holes[2].name) := c];
  }

  /** With a repeated slot it need not: the two captures of "{0} {0}" differ on "a b". */
  lemma RepeatedSlotLosesText()
    ensures var t := Split("{0} {0}");
            var m := Match(t.head, t.holes, "a b");
            && m == Some(["a", "b"]) && |t.holes| == 2
            && FormatText("{0} {0}", Collect(t.holes, ["a", "b"])) == "b b" != "a b"
  {
    var holes := [Hole("0", " "), Hole("0", "")];
    SplitOfRepeated();
    MatchesRepeated(holes);
    RepeatedCollected(holes);
    hide Fill, Match, Collect, Split, Arguments;
  }

  lemma RepeatedCollected(holes: seq<Hole>)
    requires holes == [Hole("0", " "), Hole("0", "")]
    ensures Fill("", holes, Arguments(holes, Collect(holes, ["a", "b"]))) == "b b" != "a b"
  {
    FillsRepeated("b", "b");
    CollectsLast(holes);
    hide Fill, Collect;
    assert Arguments(holes, Collect(holes, ["a", "b"])) == ["b", "b"];
    assert "b" + " " + "b" == "b b" && "b b"[0] != "a b"[0];
  }

  lemma MatchesRepeated(holes: seq<Hole>)
    requires holes == [Hole("0", " "), Hole("0", "")]
    ensures Match("", holes, "a b") == Some(["a", "b"])
  {
    FillsRepeated("a", "b");
    var rest := Fill(" ", holes[1..], ["b"]);
    assert forall k :: 0 <= k < |"a"| ==> ("a" + rest)[k..][0] == 'a';
    assert ["a", "b"][1..] == ["b"];
    assert "a" + " " + "b" == "a b";
    assert Determined(holes[1..], ["b"]);
    MatchIsExact("", holes, ["a", "b"]);
  }

  lemma CollectsLast(holes: seq<Hole>)
    requires holes == [Hole("0", " "), Hole("0", "")]
    ensures var values := Collect(holes, ["a", "b"]); 0 in values && values[0] == "b" && Number("0") == 0
  {
    assert Number("0") == Number("") * 10 + ('0' as int - '0' as int);
    assert Collect(holes, ["a", "b"]) == Collect(holes[..1], ["a", "b"][..1])[Number(holes[1].name) := "b"];
  }

  lemma FillsRepeated(a: string, b: string)
    ensures Fill("", [Hole("0", " "), Hole("0", "")], [a, b]) == a + " " + b
  {
    var holes := [Hole("0", " "), Hole("0", "")];
    assert holes == [holes[0]] + [holes[1]] && [a, b] == [a] + [b];
    FillCons("", holes[0], [holes[1]], a, [b]);
    FillCons(" ", holes[1], [], b, []);
    assert [holes[1]] == [holes[1]] + [] && [b] == [b] + [];
    assert Fill("", [], []) == "";
    assert "" + a + (" " + b + "") == a + " " + b;
  }

  lemma SplitOfRepeated()
    ensures Split("{0} {0}") == Template("", [Hole("0", " "), Hole("0", "")])
  {
    hide SlotLength, DigitRun, Split;
    SplitNothing();
    SplitZeroSlot("");
    SplitOther(' ', "{0}");
    SplitZeroSlot(" {0}");
    assert "{0}" + "" == "{0}" && [' '] + "{0}" == " {0}" && [' '] + "" == " " && "{0}" + " {0}" == "{0} {0}";
  }

  // ---------------------------------------------------------------- translation

  datatype Language = English | Chinese

  class Runtime {
    const chinese: map<string, string>
    var language: Language

    constructor (chinese: map<string, string>, language: Language)
      ensures this.chinese == chinese && this.language == language
    {
      this.chinese, this.language := chinese, language;
    }

    function Text(english: string): string
      reads this
    {
      if language == Chinese && english in chinese then chinese[english] else english
    }

    function Format(english: string, values: Values): string
      reads this
    {
      FormatText(Text(english), values)
    }

    /** What computed() gives: the first pattern the text is, or was formatted from, decides. */
    ghost function Recognised(value: string, patterns: seq<string>): string
      reads this
    {
      if patterns == [] then value
      else if value == patterns[0] then Text(patterns[0])
      else
        var t := Split(patterns[0]);
        var m := Match(t.head, t.holes, value);
        if t.holes != [] && m.Some? && |m.value| == |t.holes| then Format(patterns[0], Collect(t.holes, m.value))
        else Recognised(value, patterns[1..])
    }

    method Computed(value: string, patterns: seq<string>) returns (r: string)
      ensures r == if language == Chinese then Recognised(value, patterns) else value
    {
      if language != Chinese {
        return value;
      }
      for n := 0 to |patterns|
        invariant Recognised(value, patterns) == Recognised(value, patterns[n..])
      {
        var pattern := patterns[n];
        assert patterns[n..][1..] == patterns[n + 1..];
        if value == pattern {
          return Text(pattern);
        }
        var t := Split(pattern);
        if t.holes == [] {
          continue;
        }
        var found := Match(t.head, t.holes, value);
        if found.Some? {
          MatchIsSound(t.head, t.holes, value);
          var values: Values := map[];
          for i := 0 to |t.holes|
            invariant values == Collect(t.holes[..i], found.value[..i])
          {
            values := values[Number(t.holes[i].name) := found.value[i]];
            assert t.holes[..i + 1][..i] == t.holes[..i] && found.value[..i + 1][..i] == found.value[..i];
          }
          assert t.holes[..|t.holes|] == t.holes && found.value[..|t.holes|] == found.value;
          return Format(pattern, values);
        }
      }
      return value;
    }

    /** No earlier pattern claims the text. */
    predicate PassesOver(value: string, patterns: seq<string>) {
      forall i :: 0 <= i < |patterns| ==>
        && value != patterns[i]
        && (Split(patterns[i]).holes == [] || Match(Split(patterns[i]).head, Split(patterns[i]).holes, value).None?)
    }

    lemma {:induction false} PassedOver(value: string, before: seq<string>, after: seq<string>)
      requires PassesOver(value, before)
      ensures Recognised(value, before + after) == Recognised(value, after)
    {
      if before != [] {
        PassedOver(value, before[1..], after);
        assert (before + after)[1..] == before[1..] + after;
      } else {
        assert before + after == after;
      }
    }

    /** The pattern is the text, or has slots and matches it. */
    predicate Claims(value: string, pattern: string) {
      || value == pattern
      || (Split(pattern).holes != [] && Match(Split(pattern).head, Split(pattern).holes, value).Some?)
    }

    function Translated(english: string): string { if english in chinese then chinese[english] else english }

    /**
      In Chinese the first pattern that claims the text decides: the text itself is translated, any other is the
      translated pattern filled with what the slots captured; and a text that no pattern claims stays as it is.
     */
    lemma {:induction false} FirstClaimDecides(value: string, patterns: seq<string>, i: int)
      requires language == Chinese && 0 <= i <= |patterns|
      requires forall k :: 0 <= k < i ==> !Claims(value, patterns[k])
      requires i < |patterns| ==> Claims(value, patterns[i])
      ensures if i == |patterns| then Recognised(value, patterns) == value
              else if value == patterns[i] then Recognised(value, patterns) == Translated(value)
              else
                var t := Split(patterns[i]);
                var m := Match(t.head, t.holes, value);
                && m.Some? && |m.value| == |t.holes|
                && Recognised(value, patterns) == FormatText(Translated(patterns[i]), Collect(t.holes, m.value))
    {
      if i > 0 {
        assert !Claims(value, patterns[0]);
        assert forall k :: 0 <= k < |patterns| - 1 ==> patterns[1..][k] == patterns[k + 1];
        FirstClaimDecides(value, patterns[1..], i - 1);
      } else if patterns != [] && value != patterns[0] {
        var t := Split(patterns[0]);
        MatchIsSound(t.head, t.holes, value);
      }
    }

    /**
      A text formatted in English from the values of distinct, determined slots is recognised as the same values
      formatted in Chinese, provided the translation uses no slot the pattern lacks and the text is not the pattern
      itself.
     */
    lemma ComputedTranslatesFormat(pattern: string, values: Values, before: seq<string>, after: seq<string>)
      requires language == Chinese
      requires var t := Split(pattern);
               && t.holes != [] && Distinct(t.holes) && Determined(t.holes, Arguments(t.holes, values))
               && (forall i :: 0 <= i < |t.holes| ==> Number(t.holes[i].name) in values)
      requires forall k :: 0 <= k < |Split(Text(pattern)).holes| ==>
                 exists i :: 0 <= i < |Split(pattern).holes|
                   && Number(Split(pattern).holes[i].name) == Number(Split(Text(pattern)).holes[k].name)
      requires FormatText(pattern, values) != pattern && PassesOver(FormatText(pattern, values), before)
      ensures Recognised(FormatText(pattern, values), before + [pattern] + after) ==
              FormatText(if pattern in chinese then chinese[pattern] else pattern, values)
    {
      FormatIsRecognised(pattern, values, before, after);
      hide FormatText;
    }

    lemma FormatIsRecognised(pattern: string, values: Values, before: seq<string>, after: seq<string>)
      requires language == Chinese
      requires var t := Split(pattern);
               && t.holes != [] && Distinct(t.holes) && Determined(t.holes, Arguments(t.holes, values))
               && (forall i :: 0 <= i < |t.holes| ==> Number(t.holes[i].name) in values)
      requires forall k :: 0 <= k < |Split(Text(pattern)).holes| ==>
                 exists i :: 0 <= i < |Split(pattern).holes|
                   && Number(Split(pattern).holes[i].name) == Number(Split(Text(pattern)).holes[k].name)
      requires FormatText(pattern, values) != pattern && PassesOver(FormatText(pattern, values), before)
      ensures Recognised(FormatText(pattern, values), before + [pattern] + after) == Format(pattern, values)
    {
      var t := Split(pattern);
      var args := Arguments(t.holes, values);
      var value := FormatText(pattern, values);
      MatchIsExact(t.head, t.holes, args);
      assert before + [pattern] + after == before + ([pattern] + after);
      PassedOver(value, before, [pattern] + after);
      var collected := Collect(t.holes, args);
      var u := Split(Text(pattern));
      forall k | 0 <= k < |u.holes|
        ensures ValueOf(collected, u.holes[k].name) == ValueOf(values, u.holes[k].name)
      {
        var i :| 0 <= i < |t.holes| && Number(t.holes[i].name) == Number(u.holes[k].name);
        CollectLast(t.holes, args, i);
      }
      assert Arguments(u.holes, collected) == Arguments(u.holes, values);
    }
  }
}
