/** `authenticateToken`: the Bearer-header check, the token taken from the
    header split on single spaces, and the verification branch. `jwt.verify`
    is an oracle that yields the decoded claims or nothing. */
module AuthMiddleware {
  import opened Wrappers
  import opened Seqs
  import AuthRoutes

  const BEARER := "Bearer "
  const MISSING_TOKEN := "Acesso negado. Token não fornecido ou formato inválido."
  const INVALID_TOKEN := "Token inválido."

  predicate StartsWith(s: string, prefix: string)
  {
    |prefix| <= |s| && s[..|prefix|] == prefix
  }

  /** JavaScript's `s.split(" ")`: the pieces between single spaces, empty
      pieces included. */
  function SplitOnSpace(s: string): (r: seq<string>)
    ensures |r| >= 1
    ensures forall i :: 0 <= i < |r| ==> ' ' !in r[i]
  {
    if s == [] then [""]
    else
      var rest := SplitOnSpace(s[1..]);
      if s[0] == ' ' then [""] + rest
      else [[s[0]] + rest[0]] + rest[1..]
  }

  /** Splitting loses nothing: joining the pieces with single spaces gives
      the header back. */
  lemma {:induction false} JoinSplit(s: string)
    ensures Join(SplitOnSpace(s), " ") == s
  {
    if s != [] {
      var rest := SplitOnSpace(s[1..]);
      JoinSplit(s[1..]);
      if s[0] == ' ' {
        assert ([""] + rest)[1..] == rest;
      } else {
        var r := [[s[0]] + rest[0]] + rest[1..];
        if |rest| == 1 {
          assert r == [[s[0]] + rest[0]];
        } else {
          assert r[1..] == rest[1..];
          assert Join(rest, " ") == rest[0] + " " + Join(rest[1..], " ");
        }
      }
    }
  }

  /** A string without spaces is a single piece. */
  lemma {:induction false} SplitNoSpace(s: string)
    requires ' ' !in s
    ensures SplitOnSpace(s) == [s]
  {
    if s != [] {
      assert ' ' !in s[1..] by {
        forall i | 0 <= i < |s[1..]| ensures s[1..][i] != ' ' {
          assert s[1..][i] == s[i + 1];
        }
      }
      SplitNoSpace(s[1..]);
      assert [s[0]] + s[1..] == s;
    }
  }

  /** A prefix ending in a space contributes its own pieces first. */
  lemma {:induction false} SplitAfterSpace(w: string, t: string)
    requires ' ' !in w
    ensures SplitOnSpace(w + " " + t) == [w] + SplitOnSpace(t)
  {
    if w == [] {
      assert w + " " + t == [' '] + t;
      assert ([' '] + t)[1..] == t;
    } else {
      var s := w + " " + t;
      assert s[1..] == w[1..] + " " + t;
      assert ' ' !in w[1..] by {
        forall i | 0 <= i < |w[1..]| ensures w[1..][i] != ' ' {
          assert w[1..][i] == w[i + 1];
        }
      }
      SplitAfterSpace(w[1..], t);
      assert [w[0]] + w[1..] == w;
    }
  }

  /** There is a second piece exactly when the string contains a space. */
  lemma {:induction false} SplitSinglePiece(s: string)
    ensures |SplitOnSpace(s)| == 1 <==> ' ' !in s
  {
    if s != [] {
      SplitSinglePiece(s[1..]);
      assert s == [s[0]] + s[1..];
    }
  }

  /** `authHeader.split(" ")[1]`, absent when there is no second piece. */
  function TokenOf(header: string): (t: Option<string>)
    ensures t.Some? <==> ' ' in header
  {
    var parts := SplitOnSpace(header);
    SplitSinglePiece(header);
    if |parts| >= 2 then Some(parts[1]) else None
  }

  /** For a well-formed header the token is what follows "Bearer " up to the
      next space, and all of it when it contains no space. */
  lemma BearerToken(t: string)
    ensures TokenOf(BEARER + t) == Some(SplitOnSpace(t)[0])
    ensures ' ' !in t ==> TokenOf(BEARER + t) == Some(t)
  {
    assert BEARER + t == "Bearer" + " " + t;
    SplitAfterSpace("Bearer", t);
    if ' ' !in t {
      SplitNoSpace(t);
    }
  }

  /** The middleware's decision: reject with a code and message, or pass the
      decoded claims to the next handler. */
  datatype Outcome = Rejected(code: int, message: string) | Proceed(user: AuthRoutes.Claims)

  function Authenticate(header: Option<string>, verify: string -> Option<AuthRoutes.Claims>): (o: Outcome)
    ensures header.None? || !StartsWith(header.value, BEARER) ==> o == Rejected(401, MISSING_TOKEN)
    ensures o.Proceed? <==>
      header.Some? && StartsWith(header.value, BEARER) &&
      verify(SplitOnSpace(header.value[|BEARER|..])[0]).Some?
    ensures o.Proceed? ==> o.user == verify(SplitOnSpace(header.value[|BEARER|..])[0]).value
    ensures o == Rejected(403, INVALID_TOKEN) <==>
      header.Some? && StartsWith(header.value, BEARER) &&
      verify(SplitOnSpace(header.value[|BEARER|..])[0]).None?
  {
    if header.None? || header.value == "" || !StartsWith(header.value, BEARER) then
      Rejected(401, MISSING_TOKEN)
    else
      var rest := header.value[|BEARER|..];
      assert header.value == BEARER + rest;
      BearerToken(rest);
      var token := TokenOf(header.value).value;
      match verify(token)
      case None => Rejected(403, INVALID_TOKEN)
      case Some(decoded) => Proceed(decoded)
  }

  /** The parts of one request/response exchange the middleware touches. */
  class Exchange {
    /** `req.user`. */
    var user: Option<AuthRoutes.Claims>
    /** The status and message sent, if any. */
    var response: Option<(int, string)>
    /** How many times `next()` was called. */
    var nextCalls: nat

    constructor ()
      ensures user.None? && response.None? && nextCalls == 0
    {
      user := None;
      response := None;
      nextCalls := 0;
    }

    /** `authenticateToken(req, res, next)` on a fresh exchange. */
    method AuthenticateToken(header: Option<string>, verify: string -> Option<AuthRoutes.Claims>)
      requires response.None? && nextCalls == 0
      modifies this
      ensures match Authenticate(header, verify)
        case Rejected(code, message) =>
          response == Some((code, message)) && nextCalls == 0 && user == old(user)
        case Proceed(decoded) =>
          user == Some(decoded) && nextCalls == 1 && response.None?
    {
      if header.None? || header.value == "" || !StartsWith(header.value, BEARER) {
        response := Some((401, MISSING_TOKEN));
        return;
      }
      assert header.value == BEARER + header.value[|BEARER|..];
      BearerToken(header.value[|BEARER|..]);
      var token := TokenOf(header.value).value;
      var decoded := verify(token);
      if decoded.None? {
        response := Some((403, INVALID_TOKEN));
        return;
      }
      user := decoded;
      nextCalls := nextCalls + 1;
    }
  }
}
