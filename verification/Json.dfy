/** JSON documents as the driver reads them. An object's keys are kept in order, as a sorted map. */
module Json {
  import opened Wrappers
  import opened Text

  const U64_LIMIT := 0x1_0000_0000_0000_0000

  /** An integer the parser keeps as one: from the least `i64` to the greatest `u64`. */
  type Integer = n: int | -0x8000_0000_0000_0000 <= n < U64_LIMIT witness 0

  /** A number: an integer, or a float with the text it prints back as. */
  datatype Number = Whole(n: Integer) | Float(r: real, text: string)

  datatype Json =
    | Null
    | Bool(b: bool)
    | Num(number: Number)
    | Str(text: string)
    | Arr(items: seq<Json>)
    | Obj(fields: map<string, Json>)

  function Get(j: Json, key: string): Option<Json> {
    if j.Obj? && key in j.fields then Some(j.fields[key]) else None
  }

  function AsStr(j: Option<Json>): Option<string> {
    match j
    case Some(Str(text)) => Some(text)
    case _ => None
  }

  function AsU64(j: Json): Option<nat> {
    match j
    case Num(Whole(n)) => if n >= 0 then Some(n) else None
    case _ => None
  }

  function AsReal(j: Option<Json>): Option<real> {
    match j
    case Some(Num(Whole(n))) => Some(n as real)
    case Some(Num(Float(r, _))) => Some(r)
    case _ => None
  }

  function Walk(j: Json, keys: seq<string>): Option<Json> {
    if keys == [] then Some(j)
    else match Get(j, keys[0])
      case None => None
      case Some(inner) => Walk(inner, keys[1..])
  }

  /** A dotted path into a document; an array stands for its first element. */
  function JsonPath(j: Json, path: string): Option<Json> {
    if j.Arr? then (if j.items == [] then None else Walk(j.items[0], Split(path, '.')))
    else Walk(j, Split(path, '.'))
  }

  function NatText(n: nat): (s: string)
    ensures |s| >= 1 && AllDigits(s)
  {
    if n < 10 then [Digit(n)] else NatText(n / 10) + [Digit(n % 10)]
  }

  function NumberText(number: Number): string {
    match number
    case Whole(n) => if n < 0 then "-" + NatText(-n) else NatText(n)
    case Float(_, text) => text
  }

  /** The identifier under a key: a string, or a number as it prints. */
  function JsonId(j: Json, key: string): Option<string> {
    match JsonPath(j, key)
    case Some(Str(text)) => Some(text)
    case Some(Num(number)) => Some(NumberText(number))
    case _ => None
  }

  // ---- What is read off a document ----

  /** Text, a count and a number are read off what is one, and off nothing else. */
  lemma ScalarsAre(j: Json, text: string, n: nat)
    ensures AsStr(None) == None && (AsStr(Some(j)) == Some(text) <==> j == Str(text))
    ensures n < U64_LIMIT ==> (AsU64(j) == Some(n) <==> j == Num(Whole(n)))
    ensures AsReal(None) == None && (AsReal(Some(j)).Some? <==> j.Num?)
    ensures forall m :: AsReal(Some(Num(Whole(m)))) == Some(m as real)
    ensures forall r, t :: AsReal(Some(Num(Float(r, t)))) == Some(r)
  {
  }

  /** A path of one key is that key's value; a dotted one goes on from its first key's value, which has to be an
      object; and a document that is an array is read from its first element. */
  lemma PathsAre(fields: map<string, Json>, items: seq<Json>, key: string, rest: string)
    requires '.' !in key
    ensures JsonPath(Obj(fields), key) == if key in fields then Some(fields[key]) else None
    ensures JsonPath(Obj(fields), key + "." + rest) ==
            if key in fields && fields[key].Obj? then JsonPath(fields[key], rest) else None
    ensures JsonPath(Arr(items), rest) ==
            if items != [] && items[0].Obj? then JsonPath(items[0], rest) else None
  {
    assert Split(key, '.') == [key] && [key][1..] == [];
    SplitOnceIs(key + "." + rest, '.', key, rest);
    var keys := Split(key + "." + rest, '.');
    assert keys == [key] + Split(rest, '.') && keys[1..] == Split(rest, '.');
    if key in fields {
      assert Walk(fields[key], []) == Some(fields[key]);
      assert Walk(Obj(fields), keys) == Walk(fields[key], keys[1..]);
    } else {
      assert Walk(Obj(fields), keys) == None;
    }
  }

  /** And nothing is at any path of what is neither. */
  lemma NoPathElsewhere(j: Json, path: string)
    requires !j.Obj? && !j.Arr?
    ensures JsonPath(j, path) == None
  {
  }

  lemma {:induction false} NatTextSpells(n: nat)
    ensures Spelled(NatText(n)) == n
  {
    var s := NatText(n);
    if n < 10 {
      assert s[..|s| - 1] == [];
    } else {
      NatTextSpells(n / 10);
      assert s[..|s| - 1] == NatText(n / 10);
    }
  }


  lemma {:induction false} NatTextStarts(n: nat)
    ensures NatText(n)[0] == '0' <==> n == 0
    ensures n == 0 ==> NatText(n) == "0"
  {
    if n >= 10 {
      NatTextStarts(n / 10);
    }
  }

  /** A whole number prints as its digits, with no zero before them and a minus sign if it is below zero; a float
      prints as the document had it. */
  lemma NumbersPrint(n: Integer, r: real, text: string)
    ensures n >= 0 ==> AllDigits(NumberText(Whole(n))) && Spelled(NumberText(Whole(n))) == n
    ensures n > 0 ==> NumberText(Whole(n))[0] != '0'
    ensures n == 0 ==> NumberText(Whole(n)) == "0"
    ensures n < 0 ==> NumberText(Whole(n)) == "-" + NumberText(Whole(-n))
    ensures NumberText(Float(r, text)) == text
  {
    if n >= 0 {
      NatTextSpells(n);
      NatTextStarts(n);
    }
  }
}
