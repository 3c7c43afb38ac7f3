/**
 * Password hashing, random identifiers and total JSON parsing.
 */
module Helpers {
  import opened Wrappers
  import opened Json
  import opened Text

  /** The fixed, process-wide HMAC key. */
  const SecretKey: string := "thisIsASecret"

  predicate IsHexDigit(c: char)
  {
    '0' <= c <= '9' || 'a' <= c <= 'f'
  }

  /** The hex encoding of an HMAC-SHA256 value: 64 lowercase hex digits. */
  type HexDigest = s: string | |s| == 64 && forall i :: 0 <= i < |s| ==> IsHexDigit(s[i])
    witness seq(64, _ => '0')

  /**
   * `crypto.createHmac('sha256', key).update(message).digest('hex')`. Its
   * cryptographic content is not modelled: any total function of key and
   * message to a hex digest stands for it.
   */
  type Hmac = (string, string) -> HexDigest

  /**
   * `helpers.hash`: the keyed digest of a non-empty string, `false` for anything
   * else. The digest depends on the string alone, since the key is fixed.
   */
  function Hash(hmac: Hmac, str: Value): (r: Value)
    ensures Truthy(r) <==> str.Str? && str.s != []
    ensures str.Str? && str.s != [] ==> r == Str(hmac(SecretKey, str.s)) && |r.s| == 64
    ensures !(str.Str? && str.s != []) ==> r == Bool(false)
  {
    match str
    case Str(s) =>
      if Utf16Length(s) > 0 then Str(hmac(SecretKey, s)) else Bool(false)
    case _ => Bool(false)
  }

  /**
   * `JSON.parse` seen as a partial function: `None` is a thrown SyntaxError. Its
   * grammar is not modelled, only two facts of it: it never yields `undefined`,
   * and the empty text does not parse.
   */
  type JsonParser = parse: string -> Option<Value> | parse("") == None && forall s :: parse(s) != Some(Undefined)
    witness (s: string) => None

  /** `helpers.parseJsonToObject`: never throws; text that does not parse becomes `{}`. */
  function ParseJsonToObject(parse: JsonParser, str: string): (r: Value)
    ensures parse(str).None? ==> r == EmptyObject
    ensures parse(str).Some? ==> r == parse(str).value
    ensures r != Undefined
    ensures str == "" ==> r == EmptyObject
  {
    match parse(str)
    case Some(obj) => obj
    case None => EmptyObject
  }

  /** The alphabet of `createRandomString`. */
  const PossibleCharacters: string := "abcdefghijklmnopqrstuvwxyz0123456789"

  /** Every character of the alphabet is ASCII, so it takes one UTF-16 unit. */
  lemma PossibleCharacterIsAscii(k: nat)
    requires k < |PossibleCharacters|
    ensures PossibleCharacters[k] as int < 128
  {
  }

  /**
   * `helpers.createRandomString`: `false` unless the length is a positive number;
   * otherwise one character of the alphabet per loop turn `i = 1, 2, ...` while
   * `i <= strLength`, each picked at `Math.floor(Math.random() * 36)`. The draw of
   * `Math.random()` is a nondeterministic choice in [0, 1).
   */
  method CreateRandomString(strLength: Value) returns (r: Value)
    ensures r == Bool(false) <==> !(strLength.Num? && strLength.n > 0.0)
    ensures strLength.Num? && strLength.n > 0.0 ==>
      && r.Str?
      && |r.s| == strLength.n.Floor
      && Utf16Length(r.s) == |r.s|
      && forall i :: 0 <= i < |r.s| ==> r.s[i] in PossibleCharacters
  {
    if !(TypeOf(strLength) == "number" && strLength.n > 0.0) {
      return Bool(false);
    }
    var n := strLength.n;
    var str := "";
    var i := 1;
    while i as real <= n
      invariant 1 <= i <= n.Floor + 1
      invariant |str| == i - 1
      invariant forall k :: 0 <= k < |str| ==> str[k] in PossibleCharacters && str[k] as int < 128
      decreases n.Floor + 1 - i
    {
      var random: real :| 0.0 <= random < 1.0;
      var index := (random * |PossibleCharacters| as real).Floor;
      PossibleCharacterIsAscii(index);
      str := str + [PossibleCharacters[index]];
      i := i + 1;
    }
    Utf16LengthBmp(str);
    return Str(str);
  }
}
