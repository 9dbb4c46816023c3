/**
 * The crate-wide error type (src/error.rs): five variants, three `From`
 * conversions and the `Display` text of each variant.
 */
module Errors {
  import opened Win32
  import opened Numerals

  /** A callback-table key: a window handle and an item index. */
  type Key = (Hwnd, u32)

  /** A boxed foreign error; only its `Display` text is visible here. */
  datatype ExtError = ExtError(description: string)

  datatype Error =
    | CallbackFound(key: Key)
    | NoCallbackFound(key: Key)
    | Unimplemented
    | SysError(message: string)
    | Error(inner: ExtError)

  datatype Result<T> = Ok(value: T) | Err(error: Error)

  const CallbackFoundPrefix: string := "callback already exists and over written: ("
  const NoCallbackFoundPrefix: string := "no callback found for provided keys: ("
  const SystemErrorPrefix: string := "System error: "

  /**
   * `({:?}, {})` of a key without its opening parenthesis: the handle in
   * hexadecimal, then the index, then the closing parenthesis.
   */
  function KeyText(key: Key): (t: string)
    ensures |t| > 3 && t[..2] == "0x" && t[|t| - 1] == ')'
  {
    PointerDebug(key.0.addr) + ", " + Decimal(key.1 as nat) + ")"
  }

  /**
   * The `Display` text of an error: a table error names its kind and then
   * its key, a system error is its message, and a foreign error is its own
   * text after "Error: ".
   */
  function Display(e: Error): (t: string)
    ensures e.CallbackFound? ==>
      && |t| > |CallbackFoundPrefix|
      && t[..|CallbackFoundPrefix|] == CallbackFoundPrefix
      && t[|CallbackFoundPrefix|..] == KeyText(e.key)
    ensures e.NoCallbackFound? ==>
      && |t| > |NoCallbackFoundPrefix|
      && t[..|NoCallbackFoundPrefix|] == NoCallbackFoundPrefix
      && t[|NoCallbackFoundPrefix|..] == KeyText(e.key)
    ensures e.Unimplemented? ==> t == "unimplemented"
    ensures e.SysError? ==> t == e.message
    ensures e.Error? ==> |t| >= 7 && t[..7] == "Error: " && t[7..] == e.inner.description
  {
    match e
    case CallbackFound(key) => CallbackFoundPrefix + KeyText(key)
    case NoCallbackFound(key) => NoCallbackFoundPrefix + KeyText(key)
    case Unimplemented => "unimplemented"
    case SysError(s) => s
    case Error(x) => "Error: " + x.description
  }

  /** `From<ExtError>`: the foreign error is kept, and shows through `Display`. */
  function FromExt(x: ExtError): (r: Error)
    ensures r.Error? && r.inner == x
    ensures Display(r) == "Error: " + x.description
  {
    Error(x)
  }

  /** `From<String>`: a system error whose text is exactly the string. */
  function FromString(s: string): (r: Error)
    ensures r.SysError?
    ensures Display(r) == s
  {
    SysError(s)
  }

  /** `From<u32>`: a system error whose text names the code in decimal. */
  function FromCode(code: u32): (r: Error)
    ensures r.SysError?
    ensures |Display(r)| > |SystemErrorPrefix|
    ensures Display(r)[..|SystemErrorPrefix|] == SystemErrorPrefix
    ensures forall i :: |SystemErrorPrefix| <= i < |Display(r)| ==> '0' <= Display(r)[i] <= '9'
    ensures |Display(r)| > |SystemErrorPrefix| + 1 ==> Display(r)[|SystemErrorPrefix|] != '0'
    ensures ParseNumeral(Display(r)[|SystemErrorPrefix|..], 10) == code as nat
    ensures Display(r) == SystemErrorPrefix + Decimal(code as nat)
  {
    var digits := Decimal(code as nat);
    assert (SystemErrorPrefix + digits)[|SystemErrorPrefix|..] == digits;
    SysError(SystemErrorPrefix + digits)
  }

  /** Two different codes never give the same error. */
  lemma FromCodeInjective(a: u32, b: u32)
    requires FromCode(a) == FromCode(b)
    ensures a == b
  {
  }

  lemma DisplayOfPlainVariants(s: string)
    ensures Display(SysError(s)) == s
    ensures Display(Unimplemented) == "unimplemented"
  {
  }

  /** No character of a pointer rendering is a comma. */
  lemma NoCommaInPointer(addr: nat)
    ensures forall i :: 0 <= i < |PointerDebug(addr)| ==> PointerDebug(addr)[i] != ','
  {
  }

  /** Splitting two equal strings at their first comma gives equal heads. */
  lemma SameHeadBeforeComma(x1: string, y1: string, x2: string, y2: string)
    requires x1 + y1 == x2 + y2
    requires forall i :: 0 <= i < |x1| ==> x1[i] != ','
    requires forall i :: 0 <= i < |x2| ==> x2[i] != ','
    requires |y1| > 0 && y1[0] == ','
    requires |y2| > 0 && y2[0] == ','
    ensures x1 == x2 && y1 == y2
  {
    assert x1 == (x1 + y1)[..|x1|];
    assert x2 == (x2 + y2)[..|x2|];
    assert y1 == (x1 + y1)[|x1|..];
    assert y2 == (x2 + y2)[|x2|..];
  }

  lemma KeyTextInjective(k1: Key, k2: Key)
    requires KeyText(k1) == KeyText(k2)
    ensures k1 == k2
  {
    var p1, p2 := PointerDebug(k1.0.addr), PointerDebug(k2.0.addr);
    var d1, d2 := Decimal(k1.1 as nat), Decimal(k2.1 as nat);
    var t1, t2 := ", " + d1 + ")", ", " + d2 + ")";
    assert KeyText(k1) == p1 + t1;
    assert KeyText(k2) == p2 + t2;
    NoCommaInPointer(k1.0.addr);
    NoCommaInPointer(k2.0.addr);
    SameHeadBeforeComma(p1, t1, p2, t2);
    assert p1[2..] == p2[2..];
    assert d1 == t1[2..|t1| - 1];
    assert d2 == t2[2..|t2| - 1];
  }

  /**
   * The text of a table error names its key: two errors of the same kind
   * with the same text carry the same key, and the two kinds never share
   * a text.
   */
  lemma DisplayIdentifiesKey(k1: Key, k2: Key)
    ensures Display(CallbackFound(k1)) == Display(CallbackFound(k2)) ==> k1 == k2
    ensures Display(NoCallbackFound(k1)) == Display(NoCallbackFound(k2)) ==> k1 == k2
    ensures Display(CallbackFound(k1)) != Display(NoCallbackFound(k2))
  {
    var c1, c2 := Display(CallbackFound(k1)), Display(CallbackFound(k2));
    if c1 == c2 {
      assert KeyText(k1) == c1[|CallbackFoundPrefix|..];
      assert KeyText(k2) == c2[|CallbackFoundPrefix|..];
      KeyTextInjective(k1, k2);
    }
    var n1, n2 := Display(NoCallbackFound(k1)), Display(NoCallbackFound(k2));
    if n1 == n2 {
      assert KeyText(k1) == n1[|NoCallbackFoundPrefix|..];
      assert KeyText(k2) == n2[|NoCallbackFoundPrefix|..];
      KeyTextInjective(k1, k2);
    }
    assert c1[0] == CallbackFoundPrefix[0] == 'c';
    assert n2[0] == NoCallbackFoundPrefix[0] == 'n';
  }
}
