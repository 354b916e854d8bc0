/** The random_string tool: a string of a requested length drawn from one
    of four named character pools. The random choices are a parameter:
    `pick(i)` is the choice made for the i-th character. */
module RandomStringTool {
  import opened Common
  import opened Json

  /** `string.ascii_lowercase`, `string.ascii_uppercase`, `string.digits`
      and `string.hexdigits`. */
  const LowerLetters := "abcdefghijklmnopqrstuvwxyz"
  const UpperLetters := "ABCDEFGHIJKLMNOPQRSTUVWXYZ"
  const Digits := "0123456789"
  const HexDigits := "0123456789abcdefABCDEF"

  /** The four pools; the hex pool is `hexdigits` lower-cased (see
      HexPoolIsLowerHexDigits), so a-f occur twice. */
  const AlphanumericPool: string := LowerLetters + UpperLetters + Digits
  const AlphaPool: string := LowerLetters + UpperLetters
  const NumericPool: string := Digits
  const HexPool: string := "0123456789abcdefabcdef"

  const BadLength := "Invalid 'length' parameter. Must be a positive integer."
  const EmptyPool := "Character pool is empty, internal error."

  function BadCharset(charset: string): string {
    "Invalid 'charset' parameter: '" + charset + "'. Valid options are 'alphanumeric', 'alpha', 'numeric', 'hex'."
  }

  /** The four charsets and the pool each draws from. */
  datatype Charset = Alphanumeric | Alpha | Numeric | Hex

  function Pool(c: Charset): (r: string)
    ensures |r| >= 10
  {
    match c
    case Alphanumeric => AlphanumericPool
    case Alpha => AlphaPool
    case Numeric => NumericPool
    case Hex => HexPool
  }

  /** The names the tool accepts, once lower-cased. */
  predicate IsCharsetName(name: string) {
    name == "alphanumeric" || name == "alpha" || name == "numeric" || name == "hex"
  }

  /** The charset a lower-cased name selects, if any. */
  function CharsetNamed(name: string): (r: Option<Charset>)
    ensures r.Some? <==> IsCharsetName(name)
  {
    if name == "alphanumeric" then Some(Alphanumeric)
    else if name == "alpha" then Some(Alpha)
    else if name == "numeric" then Some(Numeric)
    else if name == "hex" then Some(Hex)
    else None
  }

  /** The charset name the tool works with: a falsy charset is
      "alphanumeric", a string is lower-cased, and anything else has no
      `lower`. */
  function SelectedName(charset: Json): Result<string> {
    if !Truthy(charset) then Ok("alphanumeric")
    else if charset.JStr? then Ok(Lower(charset.s))
    else Raised(Exc("AttributeError", "'" + TypeName(charset) + "' object has no attribute 'lower'"))
  }

  /** The charset a call selects: None for an unknown name. */
  function Selected(charset: Json): Result<Option<Charset>> {
    match SelectedName(charset)
    case Raised(e) => Raised(e)
    case Ok(name) => Ok(CharsetNamed(name))
  }

  /** `''.join(random.choice(pool) for _ in range(n))` with the choices
      given by `pick`. */
  function Draw(pool: string, n: nat, pick: nat -> nat): (r: string)
    requires pool != ""
    ensures |r| == n
    ensures forall i :: 0 <= i < n ==> r[i] in pool
  {
    seq(n, i requires 0 <= i < n => pool[pick(i) % |pool|])
  }

  /** random_string's answer: the length check, then the charset, then the
      drawn string. */
  function Generate(length: Json, charset: Json, pick: nat -> nat): (r: Result<Json>)
    ensures r.Ok? ==> r.value.JObj? && "status" in r.value.fields
  {
    if !IsInt(length) || IntValue(length) <= 0 then Ok(ErrorResult(BadLength))
    else match Selected(charset)
      case Raised(e) => Raised(e)
      case Ok(None) => Ok(ErrorResult(BadCharset(Str(charset))))
      case Ok(Some(c)) =>
        if Pool(c) == "" then Ok(ErrorResult(EmptyPool))
        else Ok(SuccessResult(JStr(Draw(Pool(c), IntValue(length), pick)), "success"))
  }

  /** The `length` and `charset` a call leaves out. */
  const DefaultLength := 12
  const DefaultCharset := "alphanumeric"

  /** `execute(length=12, charset="alphanumeric")`: the arguments a call
      leaves out take their defaults. Leaving `length` out draws twelve
      characters; passing None instead gets the length error. */
  function Execute(length: Arg<Json>, charset: Arg<Json>, pick: nat -> nat): (r: Result<Json>)
    ensures r.Ok? ==> r.value.JObj? && "status" in r.value.fields
    ensures length.Omitted? && r.Ok? && r.value.fields["status"] == JStr("success") ==>
              "result" in r.value.fields && r.value.fields["result"].JStr? && |r.value.fields["result"].s| == 12
    ensures length == Given(JNull) ==> r == Ok(ErrorResult(BadLength))
  {
    var l := ArgOr(length, JInt(DefaultLength));
    var c := ArgOr(charset, JStr(DefaultCharset));
    LengthChecked(l, c, pick);
    if IsInt(l) && IntValue(l) > 0 then
      GenerateSpec(l, c, pick);
      Generate(l, c, pick)
    else Generate(l, c, pick)
  }

  /** A call with no arguments answers twelve characters drawn from the
      alphanumeric pool. */
  lemma DefaultCall(pick: nat -> nat)
    ensures Execute(Omitted, Omitted, pick) == Ok(SuccessResult(JStr(Draw(AlphanumericPool, 12, pick)), "success"))
  {
    assert Lower(DefaultCharset) == DefaultCharset;
  }

  /** A charset is selected exactly when it is falsy or a string that names
      one in any case; a truthy value that is not a string raises. */
  lemma SelectedSpec(charset: Json)
    ensures Selected(charset).Ok? <==> !Truthy(charset) || charset.JStr?
    ensures Selected(charset).Ok? && Selected(charset).value.Some? <==>
              !Truthy(charset) || (charset.JStr? && IsCharsetName(Lower(charset.s)))
    ensures !Truthy(charset) ==> Selected(charset) == Ok(Some(Alphanumeric))
  {
  }

  /** A length that is not an integer, or not positive, gets the length
      error whatever the charset, and only such a length gets it. */
  lemma LengthChecked(length: Json, charset: Json, pick: nat -> nat)
    ensures Generate(length, charset, pick) == Ok(ErrorResult(BadLength)) <==>
              !IsInt(length) || IntValue(length) <= 0
  {
    if IsInt(length) && IntValue(length) > 0 {
      var sel := Selected(charset);
      if sel.Ok? && sel.value.None? {
        assert |BadCharset(Str(charset))| > |BadLength|;
      }
    }
  }

  /** A call with a valid length succeeds exactly when a charset is
      selected; the result then has exactly `length` characters, all from
      that charset's pool. An unknown name gets the charset error. */
  lemma GenerateSpec(length: Json, charset: Json, pick: nat -> nat)
    requires IsInt(length) && IntValue(length) > 0
    ensures var r := Generate(length, charset, pick);
            (r.Ok? && r.value.fields["status"] == JStr("success")) <==> Selected(charset).Ok? && Selected(charset).value.Some?
    ensures var r := Generate(length, charset, pick);
            Selected(charset).Ok? && Selected(charset).value.Some? ==>
              var pool := Pool(Selected(charset).value.value);
              r.Ok? && r.value.fields["result"].JStr? && |r.value.fields["result"].s| == IntValue(length) &&
              forall i :: 0 <= i < IntValue(length) ==> r.value.fields["result"].s[i] in pool
    ensures Selected(charset).Raised? ==> Generate(length, charset, pick).Raised?
    ensures Selected(charset) == Ok(None) ==> Generate(length, charset, pick) == Ok(ErrorResult(BadCharset(Str(charset))))
  {
  }

  /** The charset name is matched case-insensitively, and a falsy charset
      is "alphanumeric". */
  lemma CharsetCaseInsensitive(length: Json, charset: string, pick: nat -> nat)
    requires IsCharsetName(Lower(charset))
    ensures Selected(JStr(charset)) == Selected(JStr(Lower(charset)))
    ensures Generate(length, JStr(charset), pick) == Generate(length, JStr(Lower(charset)), pick)
    ensures Selected(JNull) == Selected(JStr("alphanumeric"))
  {
    LowerIdempotent(charset);
    assert Lower("alphanumeric") == "alphanumeric";
  }

  /** The hex pool is `string.hexdigits.lower()`. */
  lemma HexPoolIsLowerHexDigits()
    ensures HexPool == Lower(HexDigits)
  {
    var l := Lower(HexDigits);
    assert forall i :: 0 <= i < 22 ==> l[i] == HexPool[i];
  }

  /** The hex pool holds only the digits and the lower-case letters a-f,
      and each of them. */
  lemma HexPoolLowerCase()
    ensures forall i :: 0 <= i < |HexPool| ==> IsDigit(HexPool[i]) || 'a' <= HexPool[i] <= 'f'
    ensures forall c :: (IsDigit(c) || 'a' <= c <= 'f') ==> c in HexPool
  {
    forall c | IsDigit(c) || 'a' <= c <= 'f'
      ensures c in HexPool
    {
      if IsDigit(c) {
        assert HexPool[c as int - '0' as int] == c;
      } else {
        assert HexPool[10 + (c as int - 'a' as int)] == c;
      }
    }
  }

  /** The position of `c` in `pool`. */
  function IndexIn(pool: string, c: char): (r: nat)
    requires c in pool
    ensures r < |pool| && pool[r] == c
  {
    if pool[0] == c then 0 else 1 + IndexIn(pool[1..], c)
  }

  /** Every string of the right length over the pool is a possible result:
      some choices produce it. */
  lemma EveryStringPossible(pool: string, w: string)
    requires pool != "" && forall i :: 0 <= i < |w| ==> w[i] in pool
    ensures exists pick: nat -> nat :: Draw(pool, |w|, pick) == w
  {
    var pick := (i: nat) => if i < |w| then IndexIn(pool, w[i]) else 0;
    var d := Draw(pool, |w|, pick);
    forall i | 0 <= i < |w|
      ensures d[i] == w[i]
    {
      var k := IndexIn(pool, w[i]);
      assert pick(i) == k;
      assert k % |pool| == k;
    }
    assert d == w;
  }
}
