/**
 * The slice of Python's value semantics that the spawner relies on:
 * JSON documents as loaded by `json.load`, dictionaries that remember
 * insertion order, truthiness, `str()`, `int()` on text, iteration with
 * `for x in v`, and `os.path.dirname`.  Exceptions become `Err` values.
 */
module Python {

  datatype Option<+T> = None | Some(value: T)

  /** The Python exceptions the modelled code can raise. */
  datatype PyError =
    | KeyError(key: string)              // d[k] on a missing key
    | AttributeError(what: string)       // .get / .items on a value that is not a dict
    | TypeError(what: string)            // `in`, iteration or a cast on the wrong kind of value
    | IndexError                         // pop from an empty list
    | ValueError(literal: string)        // int() of text that is not a decimal integer
    | FileNotFoundError(message: string)
    | PermissionError(message: string)
    | ValidationError                    // jsonschema.validate rejected the options
    | Unsupported(what: string)          // floating-point arithmetic, which this model does not evaluate

  datatype Result<+T> = Ok(value: T) | Err(error: PyError) {
    predicate IsFailure() { Err? }
    function PropagateFailure<U>(): Result<U> requires Err? { Err(error) }
    function Extract(): T requires Ok? { value }
  }

  /** A JSON value. Objects keep their members in insertion order, as Python dicts do. */
  datatype Json =
    | Null
    | Bool(b: bool)
    | Int(i: int)
    | Num(literal: string)   // a JSON number with a fraction or exponent: a Python float, kept as text
    | Str(s: string)
    | Arr(items: seq<Json>)
    | Obj(fields: seq<(string, Json)>)

  type Fields = seq<(string, Json)>

  // ---------------------------------------------------------------------------
  // Sizes, used as termination measures by the recursive walks

  function Size(j: Json): (n: nat)
    ensures n >= 1
  {
    match j
    case Arr(items) => 1 + SizeItems(items)
    case Obj(fields) => 1 + SizeFields(fields)
    case _ => 1
  }

  function SizeItems(xs: seq<Json>): nat
  {
    if xs == [] then 0 else Size(xs[0]) + SizeItems(xs[1..])
  }

  function SizeFields(fs: Fields): nat
  {
    if fs == [] then 0 else SizeMember(fs[0]) + SizeFields(fs[1..])
  }

  function SizeMember(m: (string, Json)): nat
  {
    1 + Size(m.1)
  }

  lemma {:induction false} LookupSmaller(fs: Fields, k: string)
    requires Lookup(fs, k).Some?
    ensures Size(Lookup(fs, k).value) < SizeFields(fs)
  {
    if fs[0].0 != k {
      LookupSmaller(fs[1..], k);
    }
  }

  lemma SizeFieldsHead(fs: Fields)
    requires fs != []
    ensures SizeFields(fs) == 1 + Size(fs[0].1) + SizeFields(fs[1..])
  {
    assert SizeFields(fs) == SizeMember(fs[0]) + SizeFields(fs[1..]);
  }

  /** A member of a dict is smaller than the dict's members taken together. */
  lemma {:induction false} MemberSmaller(fs: Fields, i: int)
    requires 0 <= i < |fs|
    ensures SizeMember(fs[i]) <= SizeFields(fs)
  {
    if i > 0 {
      MemberSmaller(fs[1..], i - 1);
    }
  }

  // ---------------------------------------------------------------------------
  // Dictionaries with insertion order

  function Keys(fs: Fields): (ks: seq<string>)
    ensures |ks| == |fs|
    ensures forall i :: 0 <= i < |fs| ==> ks[i] == fs[i].0
  {
    if fs == [] then [] else [fs[0].0] + Keys(fs[1..])
  }

  predicate Distinct(s: seq<string>)
  {
    forall i, j :: 0 <= i < j < |s| ==> s[i] != s[j]
  }

  lemma ConcatAssoc<T>(a: seq<T>, b: seq<T>, c: seq<T>)
    ensures (a + b) + c == a + (b + c)
  {
  }

  /** A Python dict never holds the same key twice. */
  predicate DistinctKeys(fs: Fields)
  {
    Distinct(Keys(fs))
  }

  /** `d.get(k)`, with absence as `None`. */
  function Lookup(fs: Fields, k: string): (r: Option<Json>)
    ensures r.Some? <==> k in Keys(fs)
    ensures r.Some? ==> exists i :: 0 <= i < |fs| && fs[i] == (k, r.value)
  {
    if fs == [] then None
    else if fs[0].0 == k then Some(fs[0].1)
    else
      var r := Lookup(fs[1..], k);
      assert r.Some? ==> exists i :: 0 <= i < |fs[1..]| && fs[1..][i] == (k, r.value);
      r
  }

  /** `d.get(k)` in Python terms: a missing key reads as `None`. */
  function GetOrNull(fs: Fields, k: string): (v: Json)
    ensures k !in Keys(fs) ==> v == Null
    ensures k in Keys(fs) ==> Lookup(fs, k) == Some(v)
  {
    match Lookup(fs, k)
    case Some(v) => v
    case None => Null
  }

  /** In a dict, the member at position i is what a lookup of its key finds. */
  lemma {:induction false} LookupDistinct(fs: Fields, i: int)
    requires DistinctKeys(fs) && 0 <= i < |fs|
    ensures Lookup(fs, fs[i].0) == Some(fs[i].1)
  {
    if i > 0 {
      assert Keys(fs)[0] != Keys(fs)[i];
      assert DistinctKeys(fs[1..]) by {
        forall a, b | 0 <= a < b < |fs[1..]| ensures Keys(fs[1..])[a] != Keys(fs[1..])[b] {
          assert Keys(fs)[a + 1] != Keys(fs)[b + 1];
        }
      }
      LookupDistinct(fs[1..], i - 1);
    }
  }

  /** `d[k] = v`: an existing key keeps its position, a new key goes last. */
  function Put(fs: Fields, k: string, v: Json): Fields
  {
    if fs == [] then [(k, v)]
    else if fs[0].0 == k then [(k, v)] + fs[1..]
    else [fs[0]] + Put(fs[1..], k, v)
  }

  lemma {:induction false} LookupPut(fs: Fields, k: string, v: Json, k': string)
    ensures Lookup(Put(fs, k, v), k') == if k' == k then Some(v) else Lookup(fs, k')
  {
    if fs != [] && fs[0].0 != k {
      LookupPut(fs[1..], k, v, k');
      assert ([fs[0]] + Put(fs[1..], k, v))[1..] == Put(fs[1..], k, v);
    }
  }

  lemma {:induction false} KeysPut(fs: Fields, k: string, v: Json)
    ensures Keys(Put(fs, k, v)) == if k in Keys(fs) then Keys(fs) else Keys(fs) + [k]
  {
    if fs != [] && fs[0].0 != k {
      KeysPut(fs[1..], k, v);
      assert ([fs[0]] + Put(fs[1..], k, v))[1..] == Put(fs[1..], k, v);
      assert Keys(fs) == [fs[0].0] + Keys(fs[1..]);
    } else if fs != [] {
      assert Keys(fs) == [k] + Keys(fs[1..]);
      assert ([(k, v)] + fs[1..])[1..] == fs[1..];
    }
  }

  lemma PutDistinct(fs: Fields, k: string, v: Json)
    requires DistinctKeys(fs)
    ensures DistinctKeys(Put(fs, k, v))
  {
    KeysPut(fs, k, v);
  }

  /** Putting the first key of fs, new to acc, into acc: the rest of fs is still new to the result. */
  lemma KeysFresh(fs: Fields, acc: Fields, v: Json)
    requires fs != [] && DistinctKeys(fs)
    requires forall k :: k in Keys(fs) ==> k !in Keys(acc)
    ensures Keys(Put(acc, fs[0].0, v)) == Keys(acc) + [fs[0].0]
    ensures DistinctKeys(fs[1..])
    ensures forall k :: k in Keys(fs[1..]) ==> k !in Keys(Put(acc, fs[0].0, v))
  {
    KeysPut(acc, fs[0].0, v);
    DistinctKeysTail(fs);
    assert Keys(fs) == [fs[0].0] + Keys(fs[1..]);
  }

  /** `a |= b` (and `a | b`): the members of b are put into a in b's order. */
  function Merge(a: Fields, b: Fields): Fields
    decreases b
  {
    if b == [] then a else Merge(Put(a, b[0].0, b[0].1), b[1..])
  }

  lemma {:induction false} KeysMerge(a: Fields, b: Fields)
    decreases b
    ensures forall k :: k in Keys(Merge(a, b)) <==> k in Keys(a) || k in Keys(b)
    ensures |Keys(a)| <= |Keys(Merge(a, b))| && Keys(Merge(a, b))[..|Keys(a)|] == Keys(a)
    ensures DistinctKeys(a) ==> DistinctKeys(Merge(a, b))
  {
    if b != [] {
      var a' := Put(a, b[0].0, b[0].1);
      KeysPut(a, b[0].0, b[0].1);
      assert Keys(b) == [b[0].0] + Keys(b[1..]);
      if DistinctKeys(a) { PutDistinct(a, b[0].0, b[0].1); }
      KeysMerge(a', b[1..]);
      var r := Merge(a', b[1..]);
      assert Keys(r)[..|Keys(a)|] == Keys(r)[..|Keys(a')|][..|Keys(a)|];
    }
  }

  lemma DistinctKeysTail(b: Fields)
    requires DistinctKeys(b) && b != []
    ensures DistinctKeys(b[1..]) && b[0].0 !in Keys(b[1..])
  {
    forall x, y | 0 <= x < y < |b[1..]| ensures Keys(b[1..])[x] != Keys(b[1..])[y] {
      assert Keys(b)[x + 1] != Keys(b)[y + 1];
    }
    forall x | 0 <= x < |b[1..]| ensures Keys(b[1..])[x] != b[0].0 {
      assert Keys(b)[0] != Keys(b)[x + 1];
    }
  }

  /** After `a |= b`, a key of b reads b's value and any other key keeps a's. */
  lemma {:induction false} LookupMerge(a: Fields, b: Fields, k: string)
    requires DistinctKeys(b)
    ensures Lookup(Merge(a, b), k) == if k in Keys(b) then Lookup(b, k) else Lookup(a, k)
    decreases b
  {
    if b != [] {
      var a' := Put(a, b[0].0, b[0].1);
      assert Keys(b) == [b[0].0] + Keys(b[1..]);
      DistinctKeysTail(b);
      LookupMerge(a', b[1..], k);
      LookupPut(a, b[0].0, b[0].1, k);
    }
  }

  /** Merging a one-member dict is the same as assigning that member. */
  lemma MergeSingleton(a: Fields, k: string, v: Json)
    ensures Merge(a, [(k, v)]) == Put(a, k, v)
  {
    assert [(k, v)][1..] == [];
  }

  // ---------------------------------------------------------------------------
  // Truthiness, `bool(v)`

  /** A float literal is true unless every mantissa character is a zero, a point or a sign. */
  predicate NumTruthy(literal: string)
  {
    if literal == [] then false
    else if literal[0] == 'e' || literal[0] == 'E' then false
    else if literal[0] in "0.+-" then NumTruthy(literal[1..])
    else true
  }

  predicate Truthy(j: Json)
  {
    match j
    case Null => false
    case Bool(b) => b
    case Int(i) => i != 0
    case Num(literal) => NumTruthy(literal)
    case Str(s) => s != ""
    case Arr(items) => items != []
    case Obj(fields) => fields != []
  }

  // ---------------------------------------------------------------------------
  // `str(v)` as f-strings and str.format render values

  function DigitChar(d: nat): char
    requires d < 10
  {
    "0123456789"[d]
  }

  function NatToString(n: nat): (s: string)
    ensures |s| > 0 && forall i :: 0 <= i < |s| ==> IsDigit(s[i])
  {
    if n < 10 then [DigitChar(n)] else NatToString(n / 10) + [DigitChar(n % 10)]
  }

  function IntToString(i: int): string
  {
    if i < 0 then "-" + NatToString(-i) else NatToString(i)
  }

  /** `repr(v)`; strings are quoted with single quotes and not escaped. */
  function Repr(j: Json): string
  {
    match j
    case Null => "None"
    case Bool(b) => if b then "True" else "False"
    case Int(i) => IntToString(i)
    case Num(literal) => literal
    case Str(s) => "'" + s + "'"
    case Arr(items) => "[" + ReprItems(items) + "]"
    case Obj(fields) => "{" + ReprFields(fields) + "}"
  }

  function ReprItems(xs: seq<Json>): string
  {
    if xs == [] then ""
    else if |xs| == 1 then Repr(xs[0])
    else Repr(xs[0]) + ", " + ReprItems(xs[1..])
  }

  function ReprFields(fs: Fields): string
  {
    if fs == [] then ""
    else if |fs| == 1 then ReprMember(fs[0])
    else ReprMember(fs[0]) + ", " + ReprFields(fs[1..])
  }

  function ReprMember(m: (string, Json)): string
  {
    "'" + m.0 + "': " + Repr(m.1)
  }

  /** `str(v)`: a string is itself, anything else its repr. */
  function PyStr(j: Json): string
  {
    if j.Str? then j.s else Repr(j)
  }

  // ---------------------------------------------------------------------------
  // `int(s)` on text

  predicate IsDigit(c: char) { '0' <= c <= '9' }

  /** The ASCII characters for which str.isspace holds. */
  predicate IsSpace(c: char)
  {
    c == ' ' || ('\t' <= c <= '\r') || ('\U{1C}' <= c <= '\U{1F}')
  }

  function StripLeft(s: string): string
  {
    if s != [] && IsSpace(s[0]) then StripLeft(s[1..]) else s
  }

  function StripRight(s: string): string
  {
    if s != [] && IsSpace(s[|s| - 1]) then StripRight(s[..|s| - 1]) else s
  }

  function Strip(s: string): string
  {
    StripRight(StripLeft(s))
  }

  /** Decimal digits, optionally with single underscores between two digits. */
  predicate DigitRun(s: string)
  {
    && |s| > 0
    && IsDigit(s[0])
    && IsDigit(s[|s| - 1])
    && forall i :: 0 <= i < |s| ==> IsDigit(s[i]) || (s[i] == '_' && i + 1 < |s| && IsDigit(s[i + 1]))
  }

  /** The value of a digit run; underscores are skipped. */
  function DigitsValue(s: string): nat
  {
    if s == [] then 0
    else if IsDigit(s[|s| - 1]) then DigitsValue(s[..|s| - 1]) * 10 + ((s[|s| - 1] as int) - ('0' as int))
    else DigitsValue(s[..|s| - 1])
  }

  /** `int(s)` for a string s (ASCII digits and whitespace only). */
  function ParseInt(s: string): Option<int>
  {
    var t := Strip(s);
    if |t| > 0 && (t[0] == '-' || t[0] == '+') then
      if DigitRun(t[1..]) then
        Some(if t[0] == '-' then 0 - DigitsValue(t[1..]) else DigitsValue(t[1..]))
      else None
    else if DigitRun(t) then Some(DigitsValue(t))
    else None
  }

  lemma {:induction false} DigitsValueOfNat(n: nat)
    ensures DigitsValue(NatToString(n)) == n
  {
    if n >= 10 {
      var s := NatToString(n);
      assert s[..|s| - 1] == NatToString(n / 10);
      DigitsValueOfNat(n / 10);
      assert s[|s| - 1] == DigitChar(n % 10);
    }
  }

  lemma StripNoSpace(s: string)
    requires s != [] && !IsSpace(s[0]) && !IsSpace(s[|s| - 1])
    ensures Strip(s) == s
  {
  }

  /** `int(str(n)) == n`: reading back a rendered integer gives the integer. */
  lemma ParseIntOfIntToString(n: int)
    ensures ParseInt(IntToString(n)) == Some(n)
  {
    var s := IntToString(n);
    var m: nat := if n < 0 then -n else n;
    var digits := NatToString(m);
    DigitsValueOfNat(m);
    StripNoSpace(s);
    if n < 0 {
      assert s[1..] == digits;
    } else {
      assert s == digits;
    }
  }

  /** `item in s` for strings. */
  predicate IsSubstring(item: string, s: string)
  {
    if |s| < |item| then false else s[..|item|] == item || IsSubstring(item, s[1..])
  }

  /** `int(v)` */
  function IntCast(v: Json): (r: Result<Json>)
    ensures r.Ok? ==> r.value.Int?
    ensures v.Int? ==> r == Ok(v)
    ensures v.Bool? ==> r.Ok? && (r.value.i == 1 <==> v.b) && (r.value.i == 0 <==> !v.b)
    ensures v.Str? ==> (r.Ok? <==> ParseInt(v.s).Some?)
    ensures v.Str? && r.Ok? ==> r.value.i == ParseInt(v.s).value
    ensures v.Str? && r.Err? ==> r.error == ValueError(v.s)
    ensures v.Null? || v.Arr? || v.Obj? ==> r.Err? && r.error.TypeError?
    ensures v.Num? ==> r.Err? && r.error.Unsupported?
  {
    match v
    case Int(i) => Ok(Int(i))
    case Bool(b) => Ok(Int(if b then 1 else 0))
    case Str(s) =>
      var n := ParseInt(s);
      if n.Some? then Ok(Int(n.value)) else Err(ValueError(s))
    case Num(_) => Err(Unsupported("int() of a float"))
    case Null => Err(TypeError("int() argument must be a string or a number, not 'NoneType'"))
    case Arr(_) => Err(TypeError("int() argument must be a string or a number, not 'list'"))
    case Obj(_) => Err(TypeError("int() argument must be a string or a number, not 'dict'"))
  }

  /** `float(v)`, kept as text: integers and booleans gain a fraction, text is not parsed. */
  function FloatCast(v: Json): (r: Result<Json>)
    ensures r.Ok? ==> r.value.Num?
  {
    match v
    case Int(i) => Ok(Num(IntToString(i) + ".0"))
    case Bool(b) => Ok(Num(if b then "1.0" else "0.0"))
    case Num(literal) => Ok(Num(literal))
    case Str(_) => Err(Unsupported("float() of text"))
    case Null => Err(TypeError("float() argument must be a string or a real number, not 'NoneType'"))
    case Arr(_) => Err(TypeError("float() argument must be a string or a real number, not 'list'"))
    case Obj(_) => Err(TypeError("float() argument must be a string or a real number, not 'dict'"))
  }

  // ---------------------------------------------------------------------------
  // `for x in v`

  function Iterate(j: Json): (r: Result<seq<Json>>)
    ensures j.Arr? ==> r == Ok(j.items)
    ensures j.Null? || j.Bool? || j.Int? || j.Num? ==> r.Err?
  {
    match j
    case Arr(items) => Ok(items)
    case Str(s) => Ok(seq(|s|, i requires 0 <= i < |s| => Str([s[i]])))
    case Obj(fields) => Ok(seq(|fields|, i requires 0 <= i < |fields| => Str(fields[i].0)))
    case Null => Err(TypeError("'NoneType' object is not iterable"))
    case Bool(_) => Err(TypeError("'bool' object is not iterable"))
    case Int(_) => Err(TypeError("'int' object is not iterable"))
    case Num(_) => Err(TypeError("'float' object is not iterable"))
  }

  // ---------------------------------------------------------------------------
  // The file system as `glob.glob` and `os.access(p, os.R_OK)` see it

  datatype FileSystem = FileSystem(glob: string -> seq<string>, readable: string -> bool)

  /** `os.access(p, os.R_OK)`: the empty path names no file, so it is never accessible, whatever the
      permissions of the other files are. */
  predicate Access(fsys: FileSystem, p: string)
  {
    p != "" && fsys.readable(p)
  }

  // ---------------------------------------------------------------------------
  // `os.path.dirname` (posixpath)

  /** One past the last '/', or 0 when there is none. */
  function LastSlashEnd(p: string): (n: nat)
    ensures n <= |p|
    ensures n > 0 ==> p[n - 1] == '/'
    ensures forall i :: n <= i < |p| ==> p[i] != '/'
  {
    if p == [] then 0 else if p[|p| - 1] == '/' then |p| else LastSlashEnd(p[..|p| - 1])
  }

  predicate AllSlashes(s: string)
  {
    forall i :: 0 <= i < |s| ==> s[i] == '/'
  }

  function RStripSlashes(s: string): (r: string)
    ensures |r| <= |s| && r == s[..|r|]
  {
    if s != [] && s[|s| - 1] == '/' then RStripSlashes(s[..|s| - 1]) else s
  }

  /** Everything before the last '/', without its trailing slashes unless it is all slashes. */
  function Dirname(p: string): (d: string)
    ensures |d| <= |p| && d == p[..|d|]
    ensures (forall i :: 0 <= i < |p| ==> p[i] != '/') ==> d == ""
  {
    var head := p[..LastSlashEnd(p)];
    if head != [] && !AllSlashes(head) then RStripSlashes(head) else head
  }
}
