/**
 * Reading the token out of an `Authorization: Bearer <token>` header. The
 * code base does this in two ways: `startsWith('Bearer ')` followed by
 * `split(' ')[1]`, and `split(' ')` followed by a test that the first piece is
 * exactly `'Bearer'`. The two agree on every header.
 */
module Bearer {
  import opened Base
  import opened JsStrings

  const Prefix: string := "Bearer "

  /**
   * `startsWith('Bearer ')` then `split(' ')[1]`: None unless the header is
   * present and carries the prefix.
   */
  function PrefixedToken(authorization: Option<string>): (token: Option<string>)
    ensures token.Some? <==> authorization.Some? && StartsWith(authorization.value, Prefix)
  {
    if authorization.None? || !StartsWith(authorization.value, Prefix) then None
    else
      var h := authorization.value;
      StartsWithBearer(h);
      Piece(h, ' ', 1)
  }

  /** `const [type, token] = header?.split(' ') ?? []; type === 'Bearer' ? token : undefined`. */
  function SplitToken(authorization: Option<string>): Option<string>
  {
    match authorization
    case None => None
    case Some(h) => if Split(h, ' ')[0] == "Bearer" then Piece(h, ' ', 1) else None
  }

  /** JavaScript truthiness of an extracted token: present and not empty. */
  predicate Truthy(token: Option<string>)
  {
    token.Some? && token.value != ""
  }

  /** The header a client sends for `token`. */
  function Header(token: string): string
  {
    Prefix + token
  }

  /** A prefixed header splits into `Bearer` and what follows up to the next space. */
  lemma StartsWithBearer(h: string)
    requires StartsWith(h, Prefix)
    ensures h == "Bearer" + [' '] + h[7..]
    ensures Split(h, ' ') == ["Bearer"] + Split(h[7..], ' ')
    ensures |Split(h, ' ')| >= 2
  {
    assert Prefix == "Bearer" + [' '];
    assert h == h[..7] + h[7..];
    assert ' ' !in "Bearer";
    SplitAfter("Bearer", ' ', h[7..]);
  }

  /** A first piece equal to `Bearer` means the prefix, or the bare word. */
  lemma FirstPieceBearer(h: string)
    requires Split(h, ' ')[0] == "Bearer"
    ensures StartsWith(h, Prefix) || h == "Bearer"
  {
    match IndexOf(h, ' ')
    case None =>
    case Some(i) =>
      assert h[..i] == "Bearer";
      assert h[..7] == h[..i] + [h[i]];
  }

  /** Both ways of extracting the token give the same result on every header. */
  lemma ExtractorsAgree(authorization: Option<string>)
    ensures SplitToken(authorization) == PrefixedToken(authorization)
  {
    if authorization.Some? {
      var h := authorization.value;
      if StartsWith(h, Prefix) {
        StartsWithBearer(h);
      } else if Split(h, ' ')[0] == "Bearer" {
        FirstPieceBearer(h);
        SplitWithout("Bearer", ' ');
      }
    }
  }

  /** Extraction gives back the token a client put after the prefix. */
  lemma HeaderRoundTrip(token: string)
    requires ' ' !in token
    ensures PrefixedToken(Some(Header(token))) == Some(token)
    ensures SplitToken(Some(Header(token))) == Some(token)
  {
    assert Header(token) == "Bearer" + [' '] + token;
    assert Header(token)[..7] == Prefix;
    SplitTwo("Bearer", ' ', token);
  }
}
