// Template rendering: a left-to-right scan for {{name}} placeholders
// (internal/domain/template.go), against the relation the pattern denotes.

module Template {
  import opened Domain

  predicate Space(c: char) {
    c == ' ' || c == '\t' || c == '\n' || c == '\r' || c as int == 12
  }

  predicate Word(c: char) {
    'a' <= c <= 'z' || 'A' <= c <= 'Z' || '0' <= c <= '9' || c == '_'
  }

  // The two classes of the pattern by code point: white space is HT, LF, FF, CR and
  // the blank, a word character is an ASCII digit or letter or the underscore.
  lemma ClassesAre(c: char)
    ensures Space(c) <==> c as int in {9, 10, 12, 13, 32}
    ensures Word(c) <==> 48 <= c as int <= 57 || 65 <= c as int <= 90 || 97 <= c as int <= 122 || c as int == 95
  {
  }

  // ---- the relation: what it is to match the pattern ----

  predicate Spaces(s: string) {
    forall i :: 0 <= i < |s| ==> Space(s[i])
  }

  predicate Name(s: string) {
    s != "" && forall i :: 0 <= i < |s| ==> Word(s[i])
  }

  // body[i..j] is two braces, spaces, a name from a to b, spaces and two braces.
  predicate Shape(body: string, i: nat, a: nat, b: nat, j: nat) {
    && i + 2 <= a < b && b + 2 <= j <= |body|
    && body[i] == '{' && body[i + 1] == '{'
    && Spaces(body[i + 2..a]) && Name(body[a..b]) && Spaces(body[b..j - 2])
    && body[j - 2] == '}' && body[j - 1] == '}'
  }

  ghost predicate Matches(body: string, i: nat, j: nat, name: string) {
    exists a: nat, b: nat :: Shape(body, i, a, b, j) && name == body[a..b]
  }

  // ---- the scanner ----

  datatype Hole = Hole(start: nat, end: nat, name: string)

  function SkipSpaces(body: string, i: nat): (k: nat)
    requires i <= |body|
    ensures i <= k <= |body|
    decreases |body| - i
  {
    if i < |body| && Space(body[i]) then SkipSpaces(body, i + 1) else i
  }

  function SkipWord(body: string, i: nat): (k: nat)
    requires i <= |body|
    ensures i <= k <= |body|
    decreases |body| - i
  {
    if i < |body| && Word(body[i]) then SkipWord(body, i + 1) else i
  }

  // The placeholder at i, if the pattern matches there.
  function HoleAt(body: string, i: nat): (h: Option<Hole>)
    ensures h.Some? ==> h.value.start == i && i + 5 <= h.value.end <= |body| && h.value.name != ""
  {
    if i + 1 < |body| && body[i] == '{' && body[i + 1] == '{' then
      var a := SkipSpaces(body, i + 2);
      var b := SkipWord(body, a);
      var e := SkipSpaces(body, b);
      if a < b && e + 1 < |body| && body[e] == '}' && body[e + 1] == '}'
      then Some(Hole(i, e + 2, body[a..b]))
      else None
    else None
  }

  lemma {:induction false} SkipsOver(body: string, i: nat)
    requires i <= |body|
    ensures Spaces(body[i..SkipSpaces(body, i)])
    ensures forall x :: i <= x < SkipWord(body, i) ==> Word(body[x])
    decreases |body| - i
  {
    if i < |body| {
      SkipsOver(body, i + 1);
    }
  }

  lemma SpacesEnd(body: string, i: nat, k: nat)
    requires i <= k < |body| && Spaces(body[i..k]) && !Space(body[k])
    ensures SkipSpaces(body, i) == k
    decreases k - i
  {
    if i < k {
      assert Space(body[i..k][0]) && body[i + 1..k] == body[i..k][1..];
      SpacesEnd(body, i + 1, k);
    }
  }

  lemma WordsEnd(body: string, i: nat, k: nat)
    requires i < k < |body| && Name(body[i..k]) && !Word(body[k])
    ensures SkipWord(body, i) == k
    decreases k - i
  {
    assert Word(body[i..k][0]);
    if i + 1 < k {
      assert body[i + 1..k] == body[i..k][1..];
      WordsEnd(body, i + 1, k);
    }
  }

  lemma ScanSound(body: string, i: nat, h: Hole)
    requires HoleAt(body, i) == Some(h)
    ensures Matches(body, i, h.end, h.name)
  {
    var a := SkipSpaces(body, i + 2);
    var b := SkipWord(body, a);
    var e := SkipSpaces(body, b);
    SkipsOver(body, i + 2);
    SkipsOver(body, a);
    SkipsOver(body, b);
    assert e + 2 - 2 == e;
    assert Shape(body, i, a, b, e + 2);
  }

  lemma ScanComplete(body: string, i: nat, a: nat, b: nat, j: nat)
    requires Shape(body, i, a, b, j)
    ensures HoleAt(body, i) == Some(Hole(i, j, body[a..b]))
  {
    assert Word(body[a..b][0]) && body[a..b][0] == body[a];
    SpacesEnd(body, i + 2, a);
    assert !Word(body[b]) by {
      if b < j - 2 {
        assert body[b..j - 2][0] == body[b];
      }
    }
    WordsEnd(body, a, b);
    SpacesEnd(body, b, j - 2);
  }

  // The scanner finds a placeholder exactly where the pattern matches, and there
  // is only one way to match.
  lemma HoleAtIsMatch(body: string, i: nat, j: nat, name: string)
    ensures HoleAt(body, i) == Some(Hole(i, j, name)) <==> Matches(body, i, j, name)
  {
    hide HoleAt, Spaces, Name;
    if HoleAt(body, i) == Some(Hole(i, j, name)) {
      ScanSound(body, i, Hole(i, j, name));
    }
    if Matches(body, i, j, name) {
      var a: nat, b: nat :| Shape(body, i, a, b, j) && name == body[a..b];
      ScanComplete(body, i, a, b, j);
    }
  }

  // Inside a match no brace opens.
  lemma NoBraceInside(body: string, i: nat, a: nat, b: nat, j: nat, k: nat)
    requires Shape(body, i, a, b, j) && i + 2 <= k < j
    ensures body[k] != '{'
  {
    if k < a {
      assert Space(body[i + 2..a][k - i - 2]);
    } else if k < b {
      assert Word(body[a..b][k - a]);
    } else if k < j - 2 {
      assert Space(body[b..j - 2][k - b]);
    }
  }

  // So distinct matches never overlap.
  lemma MatchesDisjoint(body: string, i: nat, j: nat, name: string, i': nat, j': nat, name': string)
    requires Matches(body, i, j, name) && Matches(body, i', j', name') && i < i'
    ensures j <= i'
  {
    var a: nat, b: nat :| Shape(body, i, a, b, j) && name == body[a..b];
    var a': nat, b': nat :| Shape(body, i', a', b', j') && name' == body[a'..b'];
    if i' < j {
      NoBraceInside(body, i, a, b, j, if i' == i + 1 then i + 2 else i');
      assert false;
    }
  }

  // ---- scanning a whole body ----

  // The placeholders the scan visits from position i on, left to right.
  function Holes(body: string, i: nat): seq<Hole>
    requires i <= |body|
    decreases |body| - i
  {
    if i == |body| then []
    else match HoleAt(body, i)
      case Some(h) => [h] + Holes(body, h.end)
      case None => Holes(body, i + 1)
  }

  // The text the scan produces from position i on: values for placeholders,
  // everything else as it is.
  function Filled(body: string, i: nat, value: string -> string): string
    requires i <= |body|
    decreases |body| - i
  {
    if i == |body| then ""
    else match HoleAt(body, i)
      case Some(h) => value(h.name) + Filled(body, h.end, value)
      case None => [body[i]] + Filled(body, i + 1, value)
  }

  // The scan visits exactly the matches: none is skipped because another one
  // covers its start.
  lemma {:induction false} HolesAreMatches(body: string, i: nat, h: Hole)
    requires i <= |body|
    ensures h in Holes(body, i) <==> i <= h.start && Matches(body, h.start, h.end, h.name)
    decreases |body| - i
  {
    hide HoleAt, Matches;
    HoleAtIsMatch(body, h.start, h.end, h.name);
    if i < |body| {
      match HoleAt(body, i) {
        case Some(g) =>
          HolesAreMatches(body, g.end, h);
          HoleAtIsMatch(body, g.start, g.end, g.name);
          if i < h.start && Matches(body, h.start, h.end, h.name) {
            MatchesDisjoint(body, i, g.end, g.name, h.start, h.end, h.name);
          }
        case None => HolesAreMatches(body, i + 1, h);
      }
    } else if Matches(body, h.start, h.end, h.name) {
      assert h.end <= |body|;
    }
  }

  // The holes come in order of position and do not overlap.
  lemma {:induction false} HolesInOrder(body: string, i: nat, p: nat, q: nat)
    requires i <= |body| && p < q < |Holes(body, i)|
    ensures Holes(body, i)[p].end <= Holes(body, i)[q].start
    decreases |body| - i
  {
    hide HoleAt;
    match HoleAt(body, i) {
      case Some(h) =>
        if p > 0 {
          HolesInOrder(body, h.end, p - 1, q - 1);
        } else {
          var g := Holes(body, h.end)[q - 1];
          HolesAreMatches(body, h.end, g);
        }
      case None => HolesInOrder(body, i + 1, p, q);
    }
  }

  // What lies between the holes is copied: the result is the body with each hole
  // h, body[h.start..h.end], replaced by the value of its name.
  // (Holes that do not fit the body have no meaning here; HolesFit shows there are none.)
  ghost function Spliced(body: string, i: nat, holes: seq<Hole>, value: string -> string): string
    requires i <= |body|
    decreases |holes|
  {
    if holes == [] then body[i..]
    else if i <= holes[0].start <= holes[0].end <= |body| then
      body[i..holes[0].start] + value(holes[0].name) + Spliced(body, holes[0].end, holes[1..], value)
    else ""
  }

  lemma HolesFit(body: string, i: nat)
    requires i <= |body|
    ensures forall k :: 0 <= k < |Holes(body, i)| ==>
              i <= Holes(body, i)[k].start <= Holes(body, i)[k].end <= |body|
    ensures forall p, q :: 0 <= p < q < |Holes(body, i)| ==> Holes(body, i)[p].end <= Holes(body, i)[q].start
  {
    var holes := Holes(body, i);
    forall k | 0 <= k < |holes| ensures i <= holes[k].start <= holes[k].end <= |body| {
      HolesAreMatches(body, i, holes[k]);
      HoleAtIsMatch(body, holes[k].start, holes[k].end, holes[k].name);
    }
    forall p, q | 0 <= p < q < |holes| ensures holes[p].end <= holes[q].start {
      HolesInOrder(body, i, p, q);
    }
  }

  lemma {:induction false} FilledIsSpliced(body: string, i: nat, value: string -> string)
    requires i <= |body|
    ensures Filled(body, i, value) == Spliced(body, i, Holes(body, i), value)
    decreases |body| - i
  {
    hide HoleAt;
    HolesFit(body, i);
    if i < |body| {
      match HoleAt(body, i) {
        case Some(h) =>
          FilledIsSpliced(body, h.end, value);
          assert Holes(body, i)[1..] == Holes(body, h.end);
          assert body[i..i] == "";
        case None =>
          FilledIsSpliced(body, i + 1, value);
          HolesFit(body, i + 1);
          SplicedStep(body, i, Holes(body, i + 1), value);
      }
    }
  }

  lemma {:induction false} SplicedStep(body: string, i: nat, holes: seq<Hole>, value: string -> string)
    requires i < |body| && (holes != [] ==> i + 1 <= holes[0].start <= holes[0].end <= |body|)
    ensures Spliced(body, i, holes, value) == [body[i]] + Spliced(body, i + 1, holes, value)
  {
    if holes == [] {
      assert body[i..] == [body[i]] + body[i + 1..];
    } else {
      assert body[i..holes[0].start] == [body[i]] + body[i + 1..holes[0].start];
      Regroup([body[i]], body[i + 1..holes[0].start], value(holes[0].name), Spliced(body, holes[0].end, holes[1..],
          value));
    }
  }

  lemma Regroup(a: string, b: string, c: string, d: string)
    ensures ((a + b) + c) + d == a + ((b + c) + d)
  {
  }

  // ---- rendering ----

  datatype Rendered = Text(out: string) | Missing(name: string)

  function LastMissing(holes: seq<Hole>, vars: map<string, string>): Option<string> {
    if holes == [] then None
    else
      var later := LastMissing(holes[1..], vars);
      if later.Some? then later
      else if holes[0].name !in vars then Some(holes[0].name)
      else None
  }

  function ValueIn(vars: map<string, string>): string -> string {
    (name: string) => if name in vars then vars[name] else ""
  }

  function Render(body: string, vars: map<string, string>): Rendered {
    match LastMissing(Holes(body, 0), vars)
    case Some(name) => Missing(name)
    case None => Text(Filled(body, 0, ValueIn(vars)))
  }

  lemma ValueIs(vars: map<string, string>)
    ensures forall name :: name in vars ==> ValueIn(vars)(name) == vars[name]
  {
  }

  // What one step of the scan contributes.
  lemma ScanStep(body: string, i: nat, value: string -> string, vars: map<string, string>)
    requires i < |body|
    ensures match HoleAt(body, i)
      case Some(h) =>
        && Filled(body, i, value) == value(h.name) + Filled(body, h.end, value)
        && LastMissing(Holes(body, i), vars) ==
           (if LastMissing(Holes(body, h.end), vars).Some? then LastMissing(Holes(body, h.end), vars)
            else if h.name !in vars then Some(h.name)
            else None)
      case None =>
        Filled(body, i, value) == [body[i]] + Filled(body, i + 1, value) && Holes(body, i) == Holes(body, i + 1)
  {
    hide HoleAt;
    match HoleAt(body, i) {
      case Some(h) => assert ([h] + Holes(body, h.end))[1..] == Holes(body, h.end);
      case None =>
    }
  }

  lemma NothingLeft(body: string, value: string -> string, vars: map<string, string>)
    ensures Filled(body, |body|, value) == "" && LastMissing(Holes(body, |body|), vars) == None
  {
    hide HoleAt;
  }

  // One pass over the body; a missing name is noted and the last one wins.
  method RenderBody(body: string, vars: map<string, string>) returns (r: Rendered)
    ensures r == Render(body, vars)
  {
    hide HoleAt, ValueIn, Filled, Holes, LastMissing;
    ValueIs(vars);
    NothingLeft(body, ValueIn(vars), vars);
    var i, out, missing := 0, "", "";
    while i < |body|
      invariant i <= |body|
      invariant missing == "" ==> out + Filled(body, i, ValueIn(vars)) == Filled(body, 0, ValueIn(vars))
      invariant LastMissing(Holes(body, 0), vars) ==
                if LastMissing(Holes(body, i), vars).Some? then LastMissing(Holes(body, i), vars)
                else if missing != "" then Some(missing)
                else None
    {
      ScanStep(body, i, ValueIn(vars), vars);
      match HoleAt(body, i) {
        case Some(h) =>
          if h.name in vars {
            out := out + vars[h.name];
          } else {
            missing := h.name;
            out := out + body[i..h.end];
          }
          i := h.end;
        case None =>
          out := out + [body[i]];
          i := i + 1;
      }
    }
    r := if missing != "" then Missing(missing) else Text(out);
  }

  lemma {:induction false} LastMissingIs(holes: seq<Hole>, vars: map<string, string>)
    ensures LastMissing(holes, vars).None? <==> forall h :: h in holes ==> h.name in vars
    ensures LastMissing(holes, vars).Some? ==>
              exists k :: 0 <= k < |holes| && holes[k].name == LastMissing(holes, vars).value && holes[k].name !in vars
                          && forall k' :: k < k' < |holes| ==> holes[k'].name in vars
  {
    if holes != [] {
      LastMissingIs(holes[1..], vars);
      assert holes == [holes[0]] + holes[1..];
      if LastMissing(holes[1..], vars).Some? {
        var k :| 0 <= k < |holes| - 1 && holes[1..][k].name == LastMissing(holes, vars).value
                 && holes[1..][k].name !in vars && forall k' :: k < k' < |holes| - 1 ==> holes[1..][k'].name in vars;
        assert holes[k + 1] == holes[1..][k];
        assert forall k' :: k + 1 < k' < |holes| ==> holes[k'] == holes[1..][k' - 1];
      }
    }
  }

  // Rendering fails exactly when some matched name has no value.
  lemma FailsIffMissing(body: string, vars: map<string, string>)
    ensures Render(body, vars).Missing? <==> exists i, j, name :: Matches(body, i, j, name) && name !in vars
  {
    hide Matches, HoleAt;
    LastMissingIs(Holes(body, 0), vars);
    if Render(body, vars).Missing? {
      var k :| 0 <= k < |Holes(body, 0)| && Holes(body, 0)[k].name !in vars;
      var h := Holes(body, 0)[k];
      HolesAreMatches(body, 0, h);
    }
    forall i, j, name | Matches(body, i, j, name) && name !in vars ensures Render(body, vars).Missing? {
      HolesAreMatches(body, 0, Hole(i, j, name));
      assert Hole(i, j, name).name == name;
    }
  }

  // And the name it reports is that of the last match without a value.
  lemma ReportsLastMissing(body: string, vars: map<string, string>) returns (h: Hole)
    requires Render(body, vars).Missing?
    ensures Matches(body, h.start, h.end, h.name) && h.name == Render(body, vars).name && h.name !in vars
    ensures forall i, j, name :: Matches(body, i, j, name) && h.start < i ==> name in vars
  {
    hide Matches, HoleAt;
    var holes := Holes(body, 0);
    LastMissingIs(holes, vars);
    var k :| 0 <= k < |holes| && holes[k].name == Render(body, vars).name && holes[k].name !in vars
             && forall k' :: k < k' < |holes| ==> holes[k'].name in vars;
    h := holes[k];
    HolesAreMatches(body, 0, h);
    forall i, j, name | Matches(body, i, j, name) && h.start < i ensures name in vars {
      HolesAreMatches(body, 0, Hole(i, j, name));
      var k' :| 0 <= k' < |holes| && holes[k'] == Hole(i, j, name);
      if k' < k {
        HolesInOrder(body, 0, k', k);
        HoleAtIsMatch(body, i, j, name);
      }
    }
  }

  // A successful result is the body with exactly the matches replaced, each by
  // the value of its name; values are not scanned again.
  lemma SuccessIsSubstitution(body: string, vars: map<string, string>)
    requires Render(body, vars).Text?
    ensures Render(body, vars).out == Spliced(body, 0, Holes(body, 0), ValueIn(vars))
    ensures forall i, j, name :: Matches(body, i, j, name) <==> Hole(i, j, name) in Holes(body, 0)
  {
    FilledIsSpliced(body, 0, ValueIn(vars));
    forall h: Hole ensures h in Holes(body, 0) <==> Matches(body, h.start, h.end, h.name) {
      HolesAreMatches(body, 0, h);
    }
    forall i, j, name ensures Matches(body, i, j, name) <==> Hole(i, j, name) in Holes(body, 0) {
      assert Hole(i, j, name).name == name;
    }
  }

  // Only the matched names matter.
  lemma OnlyMatchedNamesMatter(body: string, vars: map<string, string>, vars': map<string, string>)
    requires forall i, j, name :: Matches(body, i, j, name) ==>
               (name in vars <==> name in vars') && (name in vars ==> vars[name] == vars'[name])
    ensures Render(body, vars) == Render(body, vars')
  {
    forall h | h in Holes(body, 0)
      ensures (h.name in vars <==> h.name in vars') && (h.name in vars ==> vars[h.name] == vars'[h.name])
    {
      HolesAreMatches(body, 0, h);
    }
    SameMissing(Holes(body, 0), vars, vars');
    SameFilled(body, 0, ValueIn(vars), ValueIn(vars'));
  }

  lemma SameMissing(holes: seq<Hole>, vars: map<string, string>, vars': map<string, string>)
    requires forall h :: h in holes ==> (h.name in vars <==> h.name in vars')
    ensures LastMissing(holes, vars) == LastMissing(holes, vars')
  {
  }

  lemma {:induction false} SameFilled(body: string, i: nat, v: string -> string, v': string -> string)
    requires i <= |body| && forall h :: h in Holes(body, i) ==> v(h.name) == v'(h.name)
    ensures Filled(body, i, v) == Filled(body, i, v')
    decreases |body| - i
  {
    hide HoleAt;
    if i < |body| {
      match HoleAt(body, i) {
        case Some(h) =>
          assert Holes(body, i) == [h] + Holes(body, h.end);
          SameFilled(body, h.end, v, v');
        case None => SameFilled(body, i + 1, v, v');
      }
    }
  }

  // ---- normal form: every name mapped to its own placeholder ----

  function Braces(): string -> string {
    (name: string) => "{{" + name + "}}"
  }

  function Normal(body: string, i: nat): string
    requires i <= |body|
  {
    Filled(body, i, Braces())
  }

  lemma {:induction false} SkipsShift(p: string, s: string, i: nat)
    requires i <= |s|
    ensures SkipSpaces(p + s, |p| + i) == |p| + SkipSpaces(s, i)
    ensures SkipWord(p + s, |p| + i) == |p| + SkipWord(s, i)
    decreases |s| - i
  {
    if i < |s| {
      assert (p + s)[|p| + i] == s[i];
      SkipsShift(p, s, i + 1);
    }
  }

  lemma ShiftedSlice(p: string, s: string, a: nat, b: nat)
    requires a <= b <= |s|
    ensures (p + s)[|p| + a..|p| + b] == s[a..b]
  {
    var left, right := (p + s)[|p| + a..|p| + b], s[a..b];
    forall k | 0 <= k < b - a ensures left[k] == right[k] {
      assert (p + s)[|p| + (a + k)] == s[a + k];
    }
  }

  // What follows decides whether a placeholder starts here, not what precedes.
  lemma HoleShift(p: string, s: string, i: nat)
    requires i <= |s|
    ensures HoleAt(p + s, |p| + i) ==
            match HoleAt(s, i)
            case None => None
            case Some(h) => Some(Hole(|p| + i, |p| + h.end, h.name))
  {
    hide SkipSpaces, SkipWord;
    if i + 1 < |s| {
      var a := SkipSpaces(s, i + 2);
      var b := SkipWord(s, a);
      SkipsShift(p, s, i + 2);
      SkipsShift(p, s, a);
      SkipsShift(p, s, b);
      ShiftedSlice(p, s, a, b);
    }
  }

  lemma {:induction false} FilledShift(p: string, s: string, i: nat, value: string -> string)
    requires i <= |s|
    ensures Filled(p + s, |p| + i, value) == Filled(s, i, value)
    decreases |s| - i
  {
    hide HoleAt;
    HoleShift(p, s, i);
    if i < |s| {
      match HoleAt(s, i) {
        case Some(h) => FilledShift(p, s, h.end, value);
        case None => FilledShift(p, s, i + 1, value);
      }
    }
  }

  lemma NormalOpens(body: string, i: nat)
    requires i < |body| && HoleAt(body, i).Some?
    ensures |Normal(body, i)| >= 2 && Normal(body, i)[0] == '{' && Normal(body, i)[1] == '{'
  {
    hide HoleAt;
  }

  lemma NormalEnds(body: string, i: nat)
    requires i <= |body|
    ensures i == |body| ==> Normal(body, i) == ""
  {
    hide HoleAt;
  }

  lemma NormalCopies(body: string, i: nat)
    requires i < |body| && HoleAt(body, i).None?
    ensures Normal(body, i) == [body[i]] + Normal(body, i + 1)
  {
    hide HoleAt;
  }

  // A copied character in front of a copied text.
  lemma PrefixCons(body: string, i: nat, m: nat, rest: string)
    requires 0 < m && i + m <= |body| && m - 1 <= |rest| && body[i + 1..i + 1 + (m - 1)] == rest[..m - 1]
    ensures body[i..i + m] == ([body[i]] + rest)[..m]
  {
    var left, right, tail := body[i..i + m], ([body[i]] + rest)[..m], body[i + 1..i + 1 + (m - 1)];
    forall k | 0 <= k < m ensures left[k] == right[k] {
      if k > 0 {
        assert tail[k - 1] == rest[..m - 1][k - 1];
      }
    }
  }

  // Up to the first opening brace the normal form is the body itself.
  lemma {:induction false} CopiedPrefix(body: string, i: nat, m: nat)
    requires i <= |body| && m <= |Normal(body, i)|
    requires forall k :: 0 <= k < m ==> Normal(body, i)[k] != '{'
    ensures i + m <= |body| && body[i..i + m] == Normal(body, i)[..m]
    decreases |body| - i
  {
    hide HoleAt, Normal;
    if m > 0 {
      NormalEnds(body, i);
      if HoleAt(body, i).Some? {
        NormalOpens(body, i);
        assert false;
      }
      var rest := Normal(body, i + 1);
      NormalCopies(body, i);
      assert forall k :: 0 <= k < m - 1 ==> rest[k] == Normal(body, i)[k + 1];
      CopiedPrefix(body, i + 1, m - 1);
      PrefixCons(body, i, m, rest);
    }
  }

  lemma ShapeMoves(s: string, i: nat, a: nat, b: nat, j: nat, t: string, k: nat)
    requires Shape(s, i, a, b, j) && k + (j - i) <= |t| && t[k..k + (j - i)] == s[i..j]
    ensures Shape(t, k, k + (a - i), k + (b - i), k + (j - i))
  {
    hide Spaces, Name;
    CharsAgree(t, k, s, i, j - i, 0);
    CharsAgree(t, k, s, i, j - i, 1);
    CharsAgree(t, k, s, i, j - i, j - i - 2);
    CharsAgree(t, k, s, i, j - i, j - i - 1);
    SlicesAgree(t, k, s, i, j - i, 2, a - i);
    SlicesAgree(t, k, s, i, j - i, a - i, b - i);
    SlicesAgree(t, k, s, i, j - i, b - i, j - i - 2);
  }

  lemma CharsAgree(t: string, k: nat, s: string, i: nat, n: nat, x: nat)
    requires k + n <= |t| && i + n <= |s| && t[k..k + n] == s[i..i + n] && x < n
    ensures t[k + x] == s[i + x]
  {
    assert t[k..k + n][x] == t[k + x] && s[i..i + n][x] == s[i + x];
  }

  lemma SlicesAgree(t: string, k: nat, s: string, i: nat, n: nat, x: nat, y: nat)
    requires k + n <= |t| && i + n <= |s| && t[k..k + n] == s[i..i + n] && x <= y <= n
    ensures t[k + x..k + y] == s[i + x..i + y]
  {
    SliceOfSlice(t, k, n, x, y);
    SliceOfSlice(s, i, n, x, y);
  }

  lemma SliceOfSlice(s: string, i: nat, n: nat, x: nat, y: nat)
    requires i + n <= |s| && x <= y <= n
    ensures s[i + x..i + y] == s[i..i + n][x..y]
  {
    var outer, inner := s[i + x..i + y], s[i..i + n][x..y];
    forall m | 0 <= m < |outer| ensures outer[m] == inner[m] {
      assert s[i..i + n][x + m] == s[i + (x + m)];
    }
  }

  // A normalised placeholder is a placeholder.
  lemma PlainHole(name: string, rest: string)
    requires Name(name)
    ensures var s := "{{" + name + "}}" + rest; HoleAt(s, 0) == Some(Hole(0, 4 + |name|, name))
  {
    var s := "{{" + name + "}}" + rest;
    var b := 2 + |name|;
    assert s[2..b] == name;
    assert Spaces(s[2..2]) && Spaces(s[b..b + 2 - 2]);
    assert Shape(s, 0, 2, b, b + 2);
    ScanComplete(s, 0, 2, b, b + 2);
  }

  lemma HoleHasName(body: string, i: nat, h: Hole)
    requires HoleAt(body, i) == Some(h)
    ensures Name(h.name)
  {
    ScanSound(body, i, h);
  }

  // Normalising what follows never makes a placeholder out of plain text.
  lemma PlainText(body: string, i: nat)
    requires i < |body| && HoleAt(body, i).None?
    ensures HoleAt(Normal(body, i), 0).None?
  {
    var s := Normal(body, i);
    if HoleAt(s, 0).Some? {
      var h := HoleAt(s, 0).value;
      ScanSound(s, 0, h);
      var a: nat, b: nat :| Shape(s, 0, a, b, h.end) && h.name == s[a..b];
      CopiedMatch(body, i, a, b, h.end);
      ScanComplete(body, i, i + a, i + b, i + h.end);
      assert false;
    }
  }

  lemma CopiedMatch(body: string, i: nat, a: nat, b: nat, j: nat)
    requires i < |body| && HoleAt(body, i).None? && Shape(Normal(body, i), 0, a, b, j)
    ensures Shape(body, i, i + a, i + b, i + j)
  {
    hide HoleAt, Filled, Normal;
    var s := Normal(body, i);
    forall k: nat | 2 <= k < j ensures s[k] != '{' {
      NoBraceInside(s, 0, a, b, j, k);
    }
    CopiedText(body, i, j);
    assert s[0..j] == s[..j];
    ShapeMoves(s, 0, a, b, j, body, i);
  }

  lemma CopiedText(body: string, i: nat, j: nat)
    requires i < |body| && HoleAt(body, i).None? && 3 <= j <= |Normal(body, i)|
    requires forall k :: 2 <= k < j ==> Normal(body, i)[k] != '{'
    ensures i + j <= |body| && body[i..i + j] == Normal(body, i)[..j]
  {
    hide HoleAt, Normal;
    var rest := Normal(body, i + 1);
    NormalCopies(body, i);
    assert forall k :: 1 <= k < j - 1 ==> rest[k] == Normal(body, i)[k + 1];
    CopiedAfterBrace(body, i + 1, j - 1);
    PrefixCons(body, i, j, rest);
  }

  // The same with one brace in front.
  lemma CopiedAfterBrace(body: string, i: nat, m: nat)
    requires i <= |body| && 2 <= m <= |Normal(body, i)|
    requires forall k :: 1 <= k < m ==> Normal(body, i)[k] != '{'
    ensures i + m <= |body| && body[i..i + m] == Normal(body, i)[..m]
  {
    hide HoleAt, Normal;
    NormalEnds(body, i);
    if HoleAt(body, i).Some? {
      NormalOpens(body, i);
      assert false;
    }
    var rest := Normal(body, i + 1);
    NormalCopies(body, i);
    assert forall k :: 0 <= k < m - 1 ==> rest[k] == Normal(body, i)[k + 1];
    CopiedPrefix(body, i + 1, m - 1);
    PrefixCons(body, i, m, rest);
  }

  // Names and widths of placeholders, without their positions.
  function Marks(holes: seq<Hole>): seq<(string, int)> {
    if holes == [] then [] else [(holes[0].name, holes[0].end - holes[0].start)] + Marks(holes[1..])
  }

  function TightMarks(holes: seq<Hole>): seq<(string, int)> {
    if holes == [] then [] else [(holes[0].name, |holes[0].name| + 4)] + TightMarks(holes[1..])
  }

  lemma {:induction false} MarksShift(p: string, s: string, i: nat)
    requires i <= |s|
    ensures Marks(Holes(p + s, |p| + i)) == Marks(Holes(s, i))
    decreases |s| - i
  {
    hide HoleAt;
    HoleShift(p, s, i);
    if i < |s| {
      match HoleAt(s, i) {
        case Some(h) => MarksShift(p, s, h.end);
        case None => MarksShift(p, s, i + 1);
      }
    }
  }

  // Normalising twice is normalising once, and leaves the same names, each in
  // bare braces.
  lemma {:induction false} NormalIsStable(body: string, i: nat)
    requires i <= |body|
    ensures Normal(Normal(body, i), 0) == Normal(body, i)
    ensures Marks(Holes(Normal(body, i), 0)) == TightMarks(Holes(body, i))
    decreases |body| - i
  {
    hide HoleAt;
    if i < |body| {
      match HoleAt(body, i) {
        case Some(h) =>
          HoleHasName(body, i, h);
          StableStep("{{" + h.name + "}}", Normal(body, h.end));
          PlainHole(h.name, Normal(body, h.end));
          NormalIsStable(body, h.end);
          assert Normal(body, i) == "{{" + h.name + "}}" + Normal(body, h.end);
        case None =>
          PlainText(body, i);
          StableStep([body[i]], Normal(body, i + 1));
          NormalIsStable(body, i + 1);
      }
    }
  }

  lemma StableStep(p: string, s: string)
    ensures Filled(p + s, |p|, Braces()) == Normal(s, 0)
    ensures Marks(Holes(p + s, |p|)) == Marks(Holes(s, 0))
  {
    FilledShift(p, s, 0, Braces());
    MarksShift(p, s, 0);
  }

  // With each name mapped to its own placeholder, rendering yields a normal form:
  // the same names in the same order in bare braces, and rendering the result
  // changes nothing.
  lemma RenderIsIdempotent(body: string, vars: map<string, string>)
    requires forall i, j, name :: Matches(body, i, j, name) ==> name in vars && vars[name] == "{{" + name + "}}"
    ensures Render(body, vars) == Text(Normal(body, 0))
    ensures Render(Normal(body, 0), vars) == Text(Normal(body, 0))
    ensures Marks(Holes(Normal(body, 0), 0)) == TightMarks(Holes(body, 0))
  {
    hide Matches, HoleAt;
    var holes := Holes(body, 0);
    var out := Normal(body, 0);
    forall h | h in holes ensures h.name in vars && vars[h.name] == "{{" + h.name + "}}" {
      HolesAreMatches(body, 0, h);
    }
    LastMissingIs(holes, vars);
    SameFilled(body, 0, ValueIn(vars), Braces());
    NormalIsStable(body, 0);
    forall h | h in Holes(out, 0) ensures h.name in vars && vars[h.name] == "{{" + h.name + "}}" {
      InMarks(Holes(out, 0), h);
      FromTightMarks(holes, h.name, h.end - h.start);
    }
    LastMissingIs(Holes(out, 0), vars);
    SameFilled(out, 0, ValueIn(vars), Braces());
  }

  lemma {:induction false} InMarks(holes: seq<Hole>, h: Hole)
    requires h in holes
    ensures (h.name, h.end - h.start) in Marks(holes)
  {
    if h != holes[0] {
      InMarks(holes[1..], h);
    }
  }

  lemma {:induction false} FromTightMarks(holes: seq<Hole>, name: string, width: int)
    requires (name, width) in TightMarks(holes)
    ensures exists h :: h in holes && h.name == name
  {
    if (name, width) == TightMarks(holes)[0] {
      assert holes[0] in holes;
    } else {
      FromTightMarks(holes[1..], name, width);
    }
  }
}
