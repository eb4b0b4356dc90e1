/** Tokens: the (type, value) pairs the scanner hands to the parser, with
    Token.equals, Token.hashCode and Token.toString. */
module Tokens {
  import opened Base

  /** Scanner.TOKEN_TYPE, spelled as in the Java enum (including UMKNOWN). */
  datatype TokenType = OPERATOR | IDENTIFIER | NUMBER | EOF | UMKNOWN

  /** A Token; `kind` and `value` are what getType and getValue return. */
  datatype Token = Token(kind: TokenType, value: string)

  /** The argument of Token.equals(Object): another token, or anything else
      (an object of another class, or null). */
  datatype Object = TokenObject(token: Token) | OtherObject

  /** Enum.name() of a token type. */
  function TypeName(t: TokenType): string {
    match t
    case OPERATOR => "OPERATOR"
    case IDENTIFIER => "IDENTIFIER"
    case NUMBER => "NUMBER"
    case EOF => "EOF"
    case UMKNOWN => "UMKNOWN"
  }

  /** Token.toString: the type's name, a colon and a space, then the value. */
  function ToString(t: Token): string {
    TypeName(t.kind) + ": " + t.value
  }

  /** Token.equals: the same type and the same value; an argument that is
      not a token throws IllegalArgumentException. */
  function Equals(t: Token, obj: Object): (r: Result<bool>)
    ensures obj.OtherObject? ==> r == Err(IllegalArgument)
    ensures obj.TokenObject? ==> r.Ok? && (r.value <==> obj.token == t)
  {
    match obj
    case OtherObject => Err(IllegalArgument)
    case TokenObject(o) => Ok(o.kind == t.kind && o.value == t.value)
  }

  lemma EqualsReflexive(t: Token)
    ensures Equals(t, TokenObject(t)) == Ok(true)
  {
  }

  lemma EqualsSymmetric(a: Token, b: Token)
    ensures Equals(a, TokenObject(b)) == Equals(b, TokenObject(a))
  {
  }

  /** Two's-complement wrap-around of an int result to 32 bits. */
  function Wrap(x: int): (r: int)
    ensures InIntRange(r)
    ensures (r - x) % 0x1_0000_0000 == 0
  {
    var m := x % 0x1_0000_0000;
    if m > IntMax then m - 0x1_0000_0000 else m
  }

  /** java.lang.String.hashCode: h = 31 * h + c over the characters, in int
      arithmetic. */
  function StringHash(s: string): (h: int)
    ensures InIntRange(h)
  {
    if s == [] then 0 else Wrap(31 * StringHash(s[..|s| - 1]) + s[|s| - 1] as int)
  }

  /** The string Token.hashCode hashes. */
  function HashKey(t: Token): string {
    TypeName(t.kind) + t.value
  }

  /** Token.hashCode. */
  function HashCode(t: Token): int {
    StringHash(HashKey(t))
  }

  /** Tokens that are equal have equal hash codes, as Object.hashCode demands
      of a class that overrides equals. */
  lemma EqualTokensEqualHashes(a: Token, b: Token)
    requires Equals(a, TokenObject(b)) == Ok(true)
    ensures HashCode(a) == HashCode(b)
  {
  }

  /** No type's name is a proper prefix of another's. */
  lemma TypeNamesPrefixFree(a: TokenType, b: TokenType)
    requires |TypeName(a)| <= |TypeName(b)|
    requires TypeName(b)[..|TypeName(a)|] == TypeName(a)
    ensures a == b
  {
    assert TypeName(b)[0] == TypeName(a)[0];
  }

  /** The string that is hashed determines the token: Token.hashCode hashes
      an injective encoding of the token, so two tokens with different hash
      codes are never equal. */
  lemma HashKeyInjective(a: Token, b: Token)
    requires HashKey(a) == HashKey(b)
    ensures a == b
  {
    var na, nb := TypeName(a.kind), TypeName(b.kind);
    if |na| <= |nb| {
      assert nb[..|na|] == (nb + b.value)[..|na|] == (na + a.value)[..|na|] == na;
      TypeNamesPrefixFree(a.kind, b.kind);
    } else {
      assert na[..|nb|] == (na + a.value)[..|nb|] == (nb + b.value)[..|nb|] == nb;
      TypeNamesPrefixFree(b.kind, a.kind);
    }
    assert a.value == (na + a.value)[|na|..] == (nb + b.value)[|nb|..] == b.value;
  }

  /** Different tokens can still share a hash code (the Java comment calls the
      code unique): "Aa" and "BB" collide after any common prefix. */
  lemma HashCodesCollide()
    ensures Token(IDENTIFIER, "Aa") != Token(IDENTIFIER, "BB")
    ensures HashCode(Token(IDENTIFIER, "Aa")) == HashCode(Token(IDENTIFIER, "BB"))
  {
    CollidingSuffixes("IDENTIFIER");
    assert HashKey(Token(IDENTIFIER, "Aa")) == "IDENTIFIER" + "Aa";
    assert HashKey(Token(IDENTIFIER, "BB")) == "IDENTIFIER" + "BB";
  }

  /** Wrapping an intermediate result does not change a later wrapped
      31 * h + c step. */
  lemma WrapStep(x: int, c: int)
    ensures Wrap(31 * Wrap(x) + c) == Wrap(31 * x + c)
  {
    var w := Wrap(x);
    var k := (w - x) / 0x1_0000_0000;
    assert w == x + k * 0x1_0000_0000;
    assert 31 * w + c == (31 * x + c) + (31 * k) * 0x1_0000_0000;
    ModShift(31 * x + c, 31 * k);
  }

  lemma ModShift(y: int, j: int)
    ensures (y + j * 0x1_0000_0000) % 0x1_0000_0000 == y % 0x1_0000_0000
  {
  }

  lemma CollidingSuffixes(p: string)
    ensures StringHash(p + "Aa") == StringHash(p + "BB")
  {
    var h := StringHash(p);
    assert (p + "Aa")[..|p + "Aa"| - 1] == p + "A";
    assert (p + "A")[..|p + "A"| - 1] == p;
    assert (p + "BB")[..|p + "BB"| - 1] == p + "B";
    assert (p + "B")[..|p + "B"| - 1] == p;
    WrapStep(31 * h + 65, 97);
    WrapStep(31 * h + 66, 66);
  }

  /** Token.toString loses nothing: different tokens print differently. */
  lemma ToStringInjective(a: Token, b: Token)
    requires ToString(a) == ToString(b)
    ensures a == b
  {
    var na, nb := TypeName(a.kind), TypeName(b.kind);
    if |na| <= |nb| {
      assert nb[..|na|] == ToString(b)[..|na|] == ToString(a)[..|na|] == na;
      TypeNamesPrefixFree(a.kind, b.kind);
    } else {
      assert na[..|nb|] == ToString(a)[..|nb|] == ToString(b)[..|nb|] == nb;
      TypeNamesPrefixFree(b.kind, a.kind);
    }
    assert a.value == ToString(a)[|na| + 2..] == ToString(b)[|nb| + 2..] == b.value;
  }
}
