/**
 * A stand-in for `pickle.dumps` / `pickle.loads`: a concrete serializer over a
 * small universe of Python values, with the round trip proved. The encoding
 * is text, like pickle protocol 0, and may itself contain `:` (a string is
 * written as its length, a `:`, then its characters), which is what makes the
 * "split at the first colon" rule of the message format matter.
 */
module Pickle {
  import opened Wrappers
  import opened Text

  /** The values a command carries as its data; model instances are carried by their primary key. */
  datatype Value =
    | VNone
    | VInt(i: int)
    | VStr(s: string)
    | VTuple(items: seq<Value>)
    | VDict(entries: seq<(string, Value)>)

  /** Python truthiness of a value. */
  predicate Truthy(v: Value)
  {
    match v
    case VNone => false
    case VInt(i) => i != 0
    case VStr(s) => s != []
    case VTuple(items) => items != []
    case VDict(entries) => entries != []
  }

  /** Opening characters of an encoded value; none of them closes a tuple (`t`) or a dict (`e`). */
  predicate IsOpener(c: char) { c == 'N' || c == 'I' || c == 'S' || c == '(' || c == 'd' }

  function Encode(v: Value): (r: string)
    ensures r != [] && IsOpener(r[0])
    decreases v, 0
  {
    match v
    case VNone => "N"
    case VInt(i) => "I" + IntToString(i) + "\n"
    case VStr(s) => EncodeStr(s)
    case VTuple(items) => "(" + EncodeItems(items) + "t"
    case VDict(entries) => "d" + EncodeEntries(entries) + "e"
  }

  function EncodeStr(s: string): (r: string)
    ensures r != [] && r[0] == 'S'
  {
    "S" + NatToString(|s|) + ":" + s
  }

  function EncodeItems(items: seq<Value>): string
    decreases items, 0
  {
    if items == [] then "" else Encode(items[0]) + EncodeItems(items[1..])
  }

  function EncodeEntries(entries: seq<(string, Value)>): string
    decreases entries, 0
  {
    if entries == [] then "" else EncodeEntry(entries[0]) + EncodeEntries(entries[1..])
  }

  /** One dict entry: the key, pickled as a string, then the value. */
  function EncodeEntry(e: (string, Value)): string
    decreases e, 0
  {
    EncodeStr(e.0) + Encode(e.1)
  }

  /** Reads one encoded value at the front of `s` and returns it with the unread rest. */
  function DecodeValue(s: string): (r: Option<(Value, string)>)
    ensures r.Some? ==> |r.value.1| < |s|
    decreases |s|, 0
  {
    if s == [] then None
    else if s[0] == 'N' then Some((VNone, s[1..]))
    else if s[0] == 'I' then
      match ParseInt(s[1..])
      case None => None
      case Some((i, rest)) =>
        if rest != [] && rest[0] == '\n' then Some((VInt(i), rest[1..])) else None
    else if s[0] == 'S' then
      match ParseNat(s[1..])
      case None => None
      case Some((n, rest)) =>
        if n < |rest| && rest[0] == ':' then Some((VStr(rest[1..n + 1]), rest[n + 1..])) else None
    else if s[0] == '(' then
      match DecodeItems(s[1..])
      case None => None
      case Some((items, rest)) => Some((VTuple(items), rest))
    else if s[0] == 'd' then
      match DecodeEntries(s[1..])
      case None => None
      case Some((entries, rest)) => Some((VDict(entries), rest))
    else None
  }

  function DecodeItems(s: string): (r: Option<(seq<Value>, string)>)
    ensures r.Some? ==> |r.value.1| < |s|
    decreases |s|, 1
  {
    if s == [] then None
    else if s[0] == 't' then Some(([], s[1..]))
    else
      match DecodeValue(s)
      case None => None
      case Some((v, rest)) =>
        match DecodeItems(rest)
        case None => None
        case Some((vs, rest')) => Some(([v] + vs, rest'))
  }

  function DecodeEntries(s: string): (r: Option<(seq<(string, Value)>, string)>)
    ensures r.Some? ==> |r.value.1| < |s|
    decreases |s|, 1
  {
    if s == [] then None
    else if s[0] == 'e' then Some(([], s[1..]))
    else
      match DecodeValue(s)
      case Some((VStr(k), rest)) =>
        (match DecodeValue(rest)
         case None => None
         case Some((v, rest')) =>
           match DecodeEntries(rest')
           case None => None
           case Some((es, rest'')) => Some(([(k, v)] + es, rest'')))
      case _ => None
  }

  lemma {:induction false} DecodeEncode(v: Value, rest: string)
    ensures DecodeValue(Encode(v) + rest) == Some((v, rest))
    decreases v, 1
  {
    match v
    case VNone =>
      assert (Encode(v) + rest)[1..] == rest;
    case VInt(i) => DecodeEncodeInt(i, rest);
    case VStr(t) => DecodeEncodeStr(t, rest);
    case VTuple(items) =>
      assert (Encode(v) + rest)[1..] == EncodeItems(items) + "t" + rest;
      DecodeEncodeItems(items, rest);
    case VDict(entries) =>
      assert (Encode(v) + rest)[1..] == EncodeEntries(entries) + "e" + rest;
      DecodeEncodeEntries(entries, rest);
  }

  lemma DecodeEncodeInt(i: int, rest: string)
    ensures DecodeValue(Encode(VInt(i)) + rest) == Some((VInt(i), rest))
  {
    var s := Encode(VInt(i)) + rest;
    assert s[1..] == IntToString(i) + ("\n" + rest);
    ParseIntOfIntToString(i, "\n" + rest);
    assert ("\n" + rest)[1..] == rest;
  }

  lemma DecodeEncodeStr(t: string, rest: string)
    ensures DecodeValue(EncodeStr(t) + rest) == Some((VStr(t), rest))
  {
    var s := EncodeStr(t) + rest;
    var tail := ":" + t + rest;
    assert s[1..] == NatToString(|t|) + tail;
    ParseNatOfNatToString(|t|, tail);
    assert tail[1..|t| + 1] == t && tail[|t| + 1..] == rest;
  }

  lemma {:induction false} DecodeEncodeItems(items: seq<Value>, rest: string)
    ensures DecodeItems(EncodeItems(items) + "t" + rest) == Some((items, rest))
    decreases items, 1
  {
    if items == [] {
      assert EncodeItems(items) + "t" + rest == "t" + rest;
    } else {
      var tail := EncodeItems(items[1..]) + "t" + rest;
      assert EncodeItems(items) + "t" + rest == Encode(items[0]) + tail;
      DecodeEncode(items[0], tail);
      DecodeEncodeItems(items[1..], rest);
      assert [items[0]] + items[1..] == items;
    }
  }

  lemma {:induction false} DecodeEncodeEntries(entries: seq<(string, Value)>, rest: string)
    ensures DecodeEntries(EncodeEntries(entries) + "e" + rest) == Some((entries, rest))
    decreases entries, 1
  {
    if entries == [] {
      assert EncodeEntries(entries) + "e" + rest == "e" + rest;
    } else {
      var tail := EncodeEntries(entries[1..]) + "e" + rest;
      assert EncodeEntries(entries) + "e" + rest == EncodeEntry(entries[0]) + tail;
      DecodeEncodeEntry(entries[0], tail);
      DecodeEncodeEntries(entries[1..], rest);
      assert [entries[0]] + entries[1..] == entries;
    }
  }

  /** Reading an encoded entry gives back its key and its value. */
  lemma {:induction false} DecodeEncodeEntry(e: (string, Value), tail: string)
    ensures DecodeValue(EncodeEntry(e) + tail) == Some((VStr(e.0), Encode(e.1) + tail))
    ensures DecodeValue(Encode(e.1) + tail) == Some((e.1, tail))
    decreases e, 1
  {
    var after := Encode(e.1) + tail;
    assert DecodeValue(EncodeEntry(e) + tail) == Some((VStr(e.0), after)) by {
      assert EncodeEntry(e) + tail == EncodeStr(e.0) + after;
      DecodeEncodeStr(e.0, after);
    }
    DecodeEncode(e.1, tail);
  }

  /** `pickle.dumps(v)`: the encoding followed by the STOP mark `.`. */
  function Dumps(v: Value): string
  {
    Encode(v) + "."
  }

  /** `pickle.loads(s)`: decodes one value that must be followed by STOP; what follows STOP is ignored. */
  function Loads(s: string): (r: Option<Value>)
  {
    match DecodeValue(s)
    case None => None
    case Some((v, rest)) => if rest != [] && rest[0] == '.' then Some(v) else None
  }

  /** Unpickling what was pickled gives back the same value. */
  lemma LoadsDumps(v: Value)
    ensures Loads(Dumps(v)) == Some(v)
  {
    DecodeEncode(v, ".");
  }

  /** Two values with the same pickle are the same value. */
  lemma DumpsInjective(v: Value, w: Value)
    requires Dumps(v) == Dumps(w)
    ensures v == w
  {
    LoadsDumps(v);
    LoadsDumps(w);
  }
}
