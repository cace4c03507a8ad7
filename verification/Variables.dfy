/** Pipeline variables: keypath lookup, assignment and copying. */
module Variables {
  import opened Values
  import opened Keypaths

  type VarMap = map<string, Value>

  predicate AllDigits(s: string) {
    forall i :: 0 <= i < |s| ==> '0' <= s[i] <= '9'
  }

  function Decimal(s: string): nat
    requires AllDigits(s)
  {
    if s == "" then 0 else 10 * Decimal(s[..|s| - 1]) + (s[|s| - 1] as int - '0' as int)
  }

  /** `strconv.ParseInt(s, 10, 64)`: an optional sign, at least one digit, 64-bit range. */
  function ParseInt(s: string): Option<int> {
    var negative := s != "" && s[0] == '-';
    var digits := if s != "" && s[0] in "+-" then s[1..] else s;
    if digits == "" || !AllDigits(digits) then None
    else
      var d: int := Decimal(digits);
      var n := if negative then -d else d;
      if -0x8000_0000_0000_0000 <= n < 0x8000_0000_0000_0000 then Some(n) else None
  }

  /** One segment of a keypath: a key of a map, or an index of a slice. */
  function Step(v: Value, part: string): Outcome<Value> {
    match v
    case Scalar(_) => Err(KeypathNotFound)
    case Node(GoMap, kids) =>
      if Field(part) in kids then Ok(kids[Field(part)]) else Err(KeypathNotFound)
    case Node(_, kids) =>
      match ParseInt(part)
      case None => Err(KeypathNotFound)
      case Some(idx) =>
        if 0 <= idx && Index(idx) in kids then Ok(kids[Index(idx)]) else Err(IndexOutOfRange)
  }

  /** The decimal digits of `n`. */
  function Show(n: nat): string {
    if n < 10 then [('0' as int + n) as char] else Show(n / 10) + [('0' as int + n % 10) as char]
  }

  lemma {:induction false} DecimalOfShow(n: nat)
    ensures Show(n) != "" && AllDigits(Show(n)) && Decimal(Show(n)) == n
  {
    if n >= 10 {
      DecimalOfShow(n / 10);
      assert Show(n)[..|Show(n)| - 1] == Show(n / 10);
    } else {
      assert Show(n)[..0] == "";
    }
  }

  lemma ParseDigits(digits: string, n: nat)
    requires digits != "" && AllDigits(digits) && Decimal(digits) == n < 0x8000_0000_0000_0000
    ensures ParseInt(digits) == Some(n as int)
  {
    assert '0' <= digits[0] <= '9';
    hide Decimal, AllDigits;
  }

  lemma ParseNegative(digits: string, n: nat)
    requires digits != "" && AllDigits(digits) && Decimal(digits) == n < 0x8000_0000_0000_0000
    ensures ParseInt("-" + digits) == Some((0 - n) as int)
  {
    assert ("-" + digits)[1..] == digits;
    hide Decimal, AllDigits;
  }

  /** `ParseInt` reads what decimal printing writes. */
  lemma ParseIntOfShow(n: nat)
    requires n < 0x8000_0000_0000_0000
    ensures ParseInt(Show(n)) == Some(n as int)
    ensures ParseInt("-" + Show(n)) == Some((0 - n) as int)
  {
    DecimalOfShow(n);
    ParseDigits(Show(n), n);
    ParseNegative(Show(n), n);
  }

  /** Element `i` of a slice is found under the decimal form of `i`, and nothing is found beyond the
      end or under a negative index. */
  lemma StepIndexes(kind: Kind, kids: map<Key, Value>, i: nat)
    requires kind != GoMap && i < 0x8000_0000_0000_0000
    ensures Step(Node(kind, kids), Show(i)) ==
      if Index(i) in kids then Ok(kids[Index(i)]) else Err(IndexOutOfRange)
    ensures i > 0 ==> Step(Node(kind, kids), "-" + Show(i)) == Err(IndexOutOfRange)
    ensures Step(Node(kind, kids), "") == Err(KeypathNotFound)
  {
    ParseIntOfShow(i);
    assert ParseInt("") == None;
    hide ParseInt, Show;
  }

  function Navigate(v: Value, parts: seq<string>): Outcome<Value> {
    if parts == [] then Ok(v)
    else
      match Step(v, parts[0])
      case Err(e) => Err(e)
      case Ok(next) => Navigate(next, parts[1..])
  }

  /** The variables seen as one Go map. */
  function Root(vars: VarMap): Value {
    Node(GoMap, map name | name in vars :: Field(name) := vars[name])
  }

  /** What `Vars.Get` returns. */
  function Lookup(vars: VarMap, keypath: string): Outcome<Value> {
    match Parse(Trim(keypath))
    case Err(e) => Err(e)
    case Ok(parts) => if parts == [] then Err(VarsRoot) else Navigate(Root(vars), parts)
  }

  /** The name that `Vars.Set` writes for a DotID, or why it refuses. */
  function VarName(dotID: string): Outcome<string> {
    var name := Trim(dotID);
    if name == "" then Err(VarsRoot) else if '.' in name then Err(VarsSetNested) else Ok(name)
  }

  /** The variables after `Vars.Set`; a refused assignment changes nothing. */
  function Assign(vars: VarMap, dotID: string, value: Value): VarMap {
    match VarName(dotID)
    case Err(_) => vars
    case Ok(name) => vars[name := value]
  }

  /** The part of the variables that a set of names can see. */
  function Restrict(vars: VarMap, names: set<string>): VarMap {
    map x | x in names && x in vars :: vars[x]
  }

  lemma {:induction false} NavigateSplits(v: Value, ps: seq<string>, qs: seq<string>)
    ensures Navigate(v, ps + qs) ==
      match Navigate(v, ps) case Err(e) => Err(e) case Ok(w) => Navigate(w, qs)
  {
    if ps == [] {
      assert ps + qs == qs;
    } else {
      assert (ps + qs)[1..] == ps[1..] + qs;
      match Step(v, ps[0])
      case Err(_) =>
      case Ok(next) => NavigateSplits(next, ps[1..], qs);
    }
  }

  /** Looking up "p.q" is looking up "p" and walking on by the parts of "q". */
  lemma LookupComposes(vars: VarMap, p: string, q: string)
    requires Trim(p) == p && Trim(q) == q
    requires p != "" && q != "" && Parse(p).Ok? && Parse(q).Ok?
    ensures Lookup(vars, p + "." + q) ==
      match Lookup(vars, p) case Err(e) => Err(e) case Ok(v) => Navigate(v, Parse(q).value)
  {
    var s := p + "." + q;
    TrimFixpoint(p);
    TrimFixpoint(q);
    TrimFixpoint(s);
    assert s[0] == p[0] && s[|s| - 1] == q[|q| - 1];
    SplitOfConcat(p, q);
    NavigateSplits(Root(vars), Split(p), Split(q));
  }

  ghost predicate SameEntry(u: VarMap, v: VarMap, name: string) {
    (name in u <==> name in v) && (name in u ==> u[name] == v[name])
  }

  /** A lookup reads only the variable named by the first segment of the keypath. */
  lemma LookupReadsOneEntry(u: VarMap, v: VarMap, keypath: string)
    requires SameEntry(u, v, FirstSegment(keypath))
    ensures Lookup(u, keypath) == Lookup(v, keypath)
  {
    var name := FirstSegment(keypath);
    assert Step(Root(u), name) == Step(Root(v), name);
  }

  /** An accepted assignment is read back, and is invisible to keypaths with another first segment. */
  lemma LookupAfterAssign(vars: VarMap, dotID: string, value: Value, keypath: string)
    requires VarName(dotID).Ok?
    ensures Lookup(Assign(vars, dotID, value), dotID) == Ok(value)
    ensures FirstSegment(keypath) != Trim(dotID) ==>
      Lookup(Assign(vars, dotID, value), keypath) == Lookup(vars, keypath)
  {
    var name := Trim(dotID);
    var after := Assign(vars, dotID, value);
    SplitOfDotFree(name);
    assert Parse(name) == Ok([name]);
    assert Step(Root(after), name) == Ok(value);
    assert Navigate(value, [name][1..]) == Ok(value);
    if FirstSegment(keypath) != name {
      LookupReadsOneEntry(vars, after, keypath);
    }
  }

  // ----- what a lookup finds -----

  /** A blank keypath has no answer, and neither has one with an empty segment. */
  lemma LookupRefuses(vars: VarMap, keypath: string)
    ensures Lookup(vars, keypath) == Err(VarsRoot) <==> Trim(keypath) == ""
    ensures Lookup(vars, keypath) == Err(WrongKeypath) <==> Malformed(Trim(keypath))
  {
    ParseRoundTrips(Trim(keypath), []);
    if Parse(Trim(keypath)).Ok? && Trim(keypath) != "" {
      NavigateErrors(Root(vars), Parse(Trim(keypath)).value);
    }
  }

  lemma {:induction false} NavigateErrors(v: Value, parts: seq<string>)
    ensures Navigate(v, parts).Ok? || Navigate(v, parts).error in {KeypathNotFound, IndexOutOfRange}
  {
    if parts != [] && Step(v, parts[0]).Ok? {
      NavigateErrors(Step(v, parts[0]).value, parts[1..]);
    }
  }

  /** One segment finds the variable of that name, or nothing. */
  lemma LookupOfName(vars: VarMap, keypath: string)
    requires Trim(keypath) != "" && '.' !in Trim(keypath)
    ensures Lookup(vars, keypath) ==
      if Trim(keypath) in vars then Ok(vars[Trim(keypath)]) else Err(KeypathNotFound)
  {
    var name := Trim(keypath);
    SplitOfDotFree(name);
    assert Parse(name) == Ok([name]);
    assert Root(vars).kids.Keys == set x | x in vars :: Field(x);
    assert Field(name) in Root(vars).kids <==> name in vars;
    assert name in vars ==> Navigate(vars[name], [name][1..]) == Ok(vars[name]);
  }

  /** A lookup finds nothing if its first segment names no variable. */
  lemma UnknownVariable(vars: VarMap, keypath: string)
    requires Trim(keypath) != "" && !Malformed(Trim(keypath)) && FirstSegment(keypath) !in vars
    ensures Lookup(vars, keypath) == Err(KeypathNotFound)
  {
    ParseRoundTrips(Trim(keypath), []);
    assert Field(FirstSegment(keypath)) !in Root(vars).kids;
  }

  /** One more segment: a map has it as a key or not, a slice has an element of that number or not,
      and nothing else has parts. Errors stay. */
  lemma LookupOneMore(vars: VarMap, p: string, q: string)
    requires Trim(p) == p != "" && !Malformed(p) && Trim(q) == q != "" && '.' !in q
    ensures Lookup(vars, p).Err? ==> Lookup(vars, p + "." + q) == Lookup(vars, p)
    ensures Lookup(vars, p).Ok? && Lookup(vars, p).value.Scalar? ==> Lookup(vars, p + "." + q) == Err(KeypathNotFound)
    ensures Lookup(vars, p).Ok? && Lookup(vars, p).value.Node? && Lookup(vars, p).value.kind == GoMap ==>
      Lookup(vars, p + "." + q) ==
        if Field(q) in Lookup(vars, p).value.kids then Ok(Lookup(vars, p).value.kids[Field(q)])
        else Err(KeypathNotFound)
    ensures Lookup(vars, p).Ok? && Lookup(vars, p).value.Node? && Lookup(vars, p).value.kind != GoMap ==>
      Lookup(vars, p + "." + q) ==
        if ParseInt(q) == None then Err(KeypathNotFound)
        else if ParseInt(q).value >= 0 && Index(ParseInt(q).value) in Lookup(vars, p).value.kids
        then Ok(Lookup(vars, p).value.kids[Index(ParseInt(q).value)]) else Err(IndexOutOfRange)
  {
    ParseRoundTrips(p, []);
    SplitOfDotFree(q);
    assert Parse(q) == Ok([q]);
    LookupComposes(vars, p, q);
    if Lookup(vars, p).Ok? {
      StepIsNavigate(Lookup(vars, p).value, q);
      hide Lookup, ParseInt;
    }
  }

  lemma StepIsNavigate(v: Value, part: string)
    ensures Navigate(v, [part]) == Step(v, part)
  {
    assert [part][1..] == [];
  }

  ghost predicate AllZeros(s: string) {
    forall i :: 0 <= i < |s| ==> s[i] == '0'
  }

  lemma {:induction false} ZerosCountNothing(zeros: string, digits: string)
    requires AllZeros(zeros) && AllDigits(digits)
    ensures AllDigits(zeros + digits) && Decimal(zeros + digits) == Decimal(digits)
    decreases |digits|
  {
    if digits == "" {
      assert zeros + digits == zeros;
      ZerosAreZero(zeros);
    } else {
      ZerosCountNothing(zeros, digits[..|digits| - 1]);
      assert (zeros + digits)[..|zeros + digits| - 1] == zeros + digits[..|digits| - 1];
    }
  }

  lemma {:induction false} ZerosAreZero(zeros: string)
    requires AllZeros(zeros)
    ensures AllDigits(zeros) && Decimal(zeros) == 0
  {
    if zeros != "" {
      ZerosAreZero(zeros[..|zeros| - 1]);
    }
  }

  /** A number may have a sign and leading zeros. Text with any other character is none, and neither
      is a number that does not fit into 64 bits. */
  lemma NumbersAre(zeros: string, n: nat, text: string)
    requires AllZeros(zeros)
    ensures ParseInt(zeros + Show(n)) == ParseInt("+" + zeros + Show(n)) ==
      if n < 0x8000_0000_0000_0000 then Some(n as int) else None
    ensures ParseInt("-" + zeros + Show(n)) == if n <= 0x8000_0000_0000_0000 then Some((0 - n) as int) else None
    ensures (exists i :: 0 <= i < |text| && !('0' <= text[i] <= '9') && !(i == 0 && text[i] in "+-")) ==>
      ParseInt(text) == None
    ensures ParseInt("") == ParseInt("+") == ParseInt("-") == None
  {
    hide ParseInt, Decimal, AllDigits, AllZeros, Show;
    var digits := zeros + Show(n);
    ZerosBefore(zeros, n);
    SignedDigits(digits, n);
    assert "+" + zeros + Show(n) == "+" + digits && "-" + zeros + Show(n) == "-" + digits;
    if exists i :: 0 <= i < |text| && !('0' <= text[i] <= '9') && !(i == 0 && text[i] in "+-") {
      NoNumber(text);
    }
    NoDigits();
  }

  lemma ZerosBefore(zeros: string, n: nat)
    requires AllZeros(zeros)
    ensures zeros + Show(n) != "" && AllDigits(zeros + Show(n)) && Decimal(zeros + Show(n)) == n
  {
    DecimalOfShow(n);
    ZerosCountNothing(zeros, Show(n));
  }

  lemma NoDigits()
    ensures ParseInt("") == ParseInt("+") == ParseInt("-") == None
  {
  }

  lemma SignedDigits(digits: string, n: nat)
    requires digits != "" && AllDigits(digits) && Decimal(digits) == n
    ensures ParseInt(digits) == ParseInt("+" + digits) == if n < 0x8000_0000_0000_0000 then Some(n as int) else None
    ensures ParseInt("-" + digits) == if n <= 0x8000_0000_0000_0000 then Some((0 - n) as int) else None
  {
    assert '0' <= digits[0] <= '9';
    hide Decimal, AllDigits;
    assert ("+" + digits)[1..] == digits && ("+" + digits)[0] == '+';
    assert ("-" + digits)[1..] == digits && ("-" + digits)[0] == '-';
  }

  lemma NoNumber(text: string)
    requires exists i :: 0 <= i < |text| && !('0' <= text[i] <= '9') && !(i == 0 && text[i] in "+-")
    ensures ParseInt(text) == None
  {
    var i :| 0 <= i < |text| && !('0' <= text[i] <= '9') && !(i == 0 && text[i] in "+-");
    if text[0] in "+-" {
      assert text[1..][i - 1] == text[i];
    }
  }

  /** `Set` accepts exactly the names that are neither blank nor dotted, up to whitespace around. */
  lemma NamesAccepted(dotID: string, before: string, name: string, after: string)
    requires dotID == before + name + after && AllSpace(before) && AllSpace(after) && Tight(name)
    ensures VarName(dotID) ==
      if name == "" then Err(VarsRoot) else if '.' in name then Err(VarsSetNested) else Ok(name)
  {
    TrimOfPadded(before, name, after);
  }

  /** The mutable map behind a Go `Vars`; copies of the Go struct share it, `Copy` does not. */
  class Vars {
    var vars: VarMap

    constructor (vars: VarMap)
      ensures this.vars == vars
    {
      this.vars := vars;
    }

    method Get(keypathStr: string) returns (r: Outcome<Value>)
      ensures r == Lookup(vars, keypathStr)
    {
      var parsed := Parse(Trim(keypathStr));
      if parsed.Err? {
        return Err(parsed.error);
      }
      var parts := parsed.value;
      if parts == [] {
        return Err(VarsRoot);
      }
      var currVal := Root(vars);
      for i := 0 to |parts|
        invariant Navigate(Root(vars), parts) == Navigate(currVal, parts[i..])
      {
        assert parts[i..][0] == parts[i] && parts[i..][1..] == parts[i + 1..];
        match Step(currVal, parts[i]) {
          case Err(e) => return Err(e);
          case Ok(next) => currVal := next;
        }
      }
      return Ok(currVal);
    }

    method Set(dotID: string, value: Value) returns (err: Option<GoError>)
      modifies this
      ensures vars == Assign(old(vars), dotID, value)
      ensures err == match VarName(dotID) case Err(e) => Some(e) case Ok(_) => None
      ensures Trim(dotID) == "" ==> err == Some(VarsRoot) && vars == old(vars)
      ensures '.' in Trim(dotID) ==> err == Some(VarsSetNested) && vars == old(vars)
      ensures Trim(dotID) != "" && '.' !in Trim(dotID) ==> err == None && vars == old(vars)[Trim(dotID) := value]
    {
      match VarName(dotID) {
        case Err(e) => return Some(e);
        case Ok(name) =>
          vars := vars[name := value];
          return None;
      }
    }

    /** Writing to the copy cannot change a lookup in the original: the copy is a new object. */
    method Copy() returns (copy: Vars)
      ensures fresh(copy) && copy.vars == vars
    {
      var newVars: VarMap := map[];
      var todo := vars.Keys;
      while todo != {}
        invariant todo <= vars.Keys
        invariant newVars.Keys == vars.Keys - todo
        invariant forall k :: k in newVars ==> newVars[k] == vars[k]
        decreases |todo|
      {
        var k :| k in todo;
        newVars := newVars[k := vars[k]];
        todo := todo - {k};
      }
      copy := new Vars(newVars);
    }
  }

  /** `Set` on a copy never changes what `Get` finds in the original. */
  method SetOnCopy(original: Vars, dotID: string, value: Value, keypath: string)
    returns (before: Outcome<Value>, after: Outcome<Value>)
    ensures before == after == Lookup(original.vars, keypath)
    ensures original.vars == old(original.vars)
  {
    before := original.Get(keypath);
    var copy := original.Copy();
    var _ := copy.Set(dotID, value);
    after := original.Get(keypath);
  }
}
