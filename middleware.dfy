// The JWT gate in front of every agent's A2A endpoint, as a decision over the request line, the
// Authorization header and the DISABLE_AUTH setting. Token validation is an oracle: it answers
// None for a valid token or the AuthenticationError text.
module Middleware {
  import opened Wrappers
  import opened Strings

  /** What the gate does with a request: pass it on, or answer with this status and JSON body. */
  datatype Decision = Forward | Reject(status: int, error: string, detail: string)

  /** `str.split(sep)` with an explicit separator: every occurrence splits, empty pieces included. */
  function Split(s: string, sep: char): (parts: seq<string>)
    ensures |parts| >= 1
    decreases |s|
  {
    if |s| == 0 then [""]
    else
      var rest := Split(s[1..], sep);
      if s[0] == sep then [""] + rest else [[s[0]] + rest[0]] + rest[1..]
  }

  /** The number of occurrences of `c` in `s`. */
  function Count(s: string, c: char): nat
    decreases |s|
  {
    if |s| == 0 then 0 else (if s[0] == c then 1 else 0) + Count(s[1..], c)
  }

  /** Splitting yields one piece more than there are separators, and the pieces hold no separator. */
  lemma {:induction false} SplitPieces(s: string, sep: char)
    ensures |Split(s, sep)| == Count(s, sep) + 1
    ensures forall k :: 0 <= k < |Split(s, sep)| ==> sep !in Split(s, sep)[k]
    decreases |s|
  {
    if |s| > 0 {
      SplitPieces(s[1..], sep);
    }
  }

  /** A separator-free text is one piece. */
  lemma {:induction false} SplitNone(s: string, sep: char)
    requires sep !in s
    ensures Split(s, sep) == [s]
    decreases |s|
  {
    if |s| > 0 {
      assert s[0] != sep && sep !in s[1..];
      SplitNone(s[1..], sep);
      assert [s[0]] + s[1..] == s;
    }
  }

  /** Text with exactly one separator splits into the part before it and the part after it. */
  lemma {:induction false} SplitAround(a: string, b: string, sep: char)
    requires sep !in a && sep !in b
    ensures Split(a + [sep] + b, sep) == [a, b]
    decreases |a|
  {
    var s := a + [sep] + b;
    if |a| == 0 {
      assert s[1..] == b;
      SplitNone(b, sep);
    } else {
      assert s[1..] == a[1..] + [sep] + b;
      assert sep !in a[1..];
      SplitAround(a[1..], b, sep);
      assert [a[0]] + a[1..] == a;
    }
  }

  /** The header "Bearer " + t, with no further space in t, splits into "Bearer" and t. */
  lemma BearerSplit(t: string)
    requires ' ' !in t
    ensures Split("Bearer " + t, ' ') == ["Bearer", t]
    ensures Count("Bearer " + t, ' ') == 1
  {
    var h := "Bearer " + t;
    assert h == "Bearer" + [' '] + t;
    SplitAround("Bearer", t, ' ');
    SplitPieces(h, ' ');
  }

  /** `os.getenv("DISABLE_AUTH", "false").lower() == "true"`. */
  predicate AuthDisabled(disableAuth: Option<string>) {
    Lower(disableAuth.GetOr("false")) == "true"
  }

  /** `not header or not header.startswith("Bearer ")`. */
  predicate LacksBearer(header: Option<string>) {
    header.None? || header.value == "" || !StartsWith(header.value, "Bearer ")
  }

  /** `JWTMiddleware.dispatch`. A header passes the format test when it is "Bearer " followed by a
      token with no further space; a failed validation is forgiven only under DISABLE_AUTH. */
  function Decide(verb: string, path: string, header: Option<string>, disableAuth: Option<string>,
                  validate: string -> Option<string>): (d: Decision)
    ensures verb == "OPTIONS" ==> d == Forward
    ensures Contains(path, "agent.json") ==> d == Forward
    ensures d.Reject? ==> d.status == 401 || d.status == 403
    ensures d.Forward? <==>
      verb == "OPTIONS" || Contains(path, "agent.json")
      || (LacksBearer(header) && AuthDisabled(disableAuth))
      || (!LacksBearer(header) && Count(header.value, ' ') == 1
          && (validate(header.value[7..]).None? || AuthDisabled(disableAuth)))
    ensures d.Reject? && d.status == 403 ==>
      !LacksBearer(header) && validate(header.value[7..]).Some? && !AuthDisabled(disableAuth)
      && d.detail == validate(header.value[7..]).value
    ensures (!LacksBearer(header) && Count(header.value, ' ') != 1 && verb != "OPTIONS"
             && !Contains(path, "agent.json")) ==> d == Reject(401, "Invalid Authorization header format", "Bearer token required")
  {
    if verb == "OPTIONS" then Forward
    else if Contains(path, "agent.json") then Forward
    else if LacksBearer(header) then
      if AuthDisabled(disableAuth) then Forward
      else Reject(401, "Unauthorized", "Missing or invalid Authorization header")
    else
      var parts := Split(header.value, ' ');
      SplitPieces(header.value, ' ');
      if |parts| != 2 then Reject(401, "Invalid Authorization header format", "Bearer token required")
      else
        assert parts[1] == header.value[7..] by {
          var t := header.value[7..];
          assert header.value == "Bearer " + t;
          assert ' ' !in t by {
            if ' ' in t {
              var k :| 0 <= k < |t| && t[k] == ' ';
              CountTwo(header.value, 6, 7 + k);
            }
          }
          BearerSplit(t);
        }
        match validate(parts[1])
        case None => Forward
        case Some(e) => if AuthDisabled(disableAuth) then Forward else Reject(403, "Unauthorized", e)
  }

  /** Two distinct positions holding `c` mean at least two occurrences. */
  lemma {:induction false} CountTwo(s: string, i: nat, j: nat)
    requires i < j < |s| && s[i] == ' ' && s[j] == ' '
    ensures Count(s, ' ') >= 2
    decreases |s|
  {
    if i > 0 {
      CountTwo(s[1..], i - 1, j - 1);
    } else {
      CountOne(s[1..], j - 1);
    }
  }

  lemma {:induction false} CountOne(s: string, j: nat)
    requires j < |s| && s[j] == ' '
    ensures Count(s, ' ') >= 1
    decreases |s|
  {
    if j > 0 {
      CountOne(s[1..], j - 1);
    }
  }

  /** A well-formed bearer header reaches the validator with exactly its token, and is forwarded
      iff the token is valid or the gate is disabled. */
  lemma BearerTokenIsValidated(verb: string, path: string, token: string, disableAuth: Option<string>,
                               validate: string -> Option<string>)
    requires verb != "OPTIONS" && !Contains(path, "agent.json") && ' ' !in token
    ensures Decide(verb, path, Some("Bearer " + token), disableAuth, validate).Forward?
      <==> validate(token).None? || AuthDisabled(disableAuth)
  {
    BearerSplit(token);
    var h := "Bearer " + token;
    assert StartsWith(h, "Bearer ");
    assert h[7..] == token;
  }
}
