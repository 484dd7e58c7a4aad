/**
  The sign-in URL and the code a user pastes back
  (src/auth/openai_codex_auth.cpp).
 */
module OAuthUrls {
  import opened Text
  import opened UrlCodec

  const AUTHORIZE_URL: string := "https://auth.openai.com/oauth/authorize"
  const CLIENT_ID: string := "app_EMoamEEZ73f0CkXaXp7hrann"
  const SCOPE: string := "openid profile email offline_access"

  /** The parts of the sign-in URL that are encoded into it. */
  datatype SignIn = SignIn(clientId: string, redirect: string, scope: string, challenge: string, state: string)

  predicate Sendable(r: SignIn) {
    AllBytes(r.clientId) && AllBytes(r.redirect) && AllBytes(r.scope) && AllBytes(r.challenge) && AllBytes(r.state)
  }

  /** The names of the parameters, in order. */
  const NAMES: seq<string> := [
    "response_type", "client_id", "redirect_uri", "scope", "code_challenge", "code_challenge_method", "state",
    "id_token_add_organizations", "codex_cli_simplified_flow", "originator"
  ]

  function SignInPairs(names: seq<string>, r: SignIn): seq<Pair>
    requires Sendable(r) && |names| == 10
  {
    [Pair(names[0], "code"),
     Pair(names[1], Encode(r.clientId)),
     Pair(names[2], Encode(r.redirect)),
     Pair(names[3], Encode(r.scope)),
     Pair(names[4], Encode(r.challenge)),
     Pair(names[5], "S256"),
     Pair(names[6], Encode(r.state)),
     Pair(names[7], "true"),
     Pair(names[8], "true"),
     Pair(names[9], "pi")]
  }

  function SignInUrl(base: string, r: SignIn): string
    requires Sendable(r)
  {
    base + "?" + Print(SignInPairs(NAMES, r))
  }

  /** An encoded value never ends its pair early. */
  lemma EncodedIsClean(key: string, value: string)
    requires AllBytes(value) && '&' !in key && '=' !in key
    ensures Clean(Pair(key, Encode(value)))
  {
    EncodedAlphabet(value);
  }

  predicate NameOk(name: string) { '&' !in name && '=' !in name }

  lemma PairsClean(names: seq<string>, r: SignIn)
    requires Sendable(r) && |names| == 10 && forall i :: 0 <= i < 10 ==> NameOk(names[i])
    ensures forall p :: p in SignInPairs(names, r) ==> Clean(p)
  {
    EncodedIsClean(names[1], r.clientId);
    EncodedIsClean(names[2], r.redirect);
    EncodedIsClean(names[3], r.scope);
    EncodedIsClean(names[4], r.challenge);
    EncodedIsClean(names[6], r.state);
  }

  lemma NamesOk()
    ensures forall i :: 0 <= i < 10 ==> NameOk(NAMES[i])
  {
    FirstNames();
    MiddleNames();
    LastNames();
  }

  lemma FirstNames()
    ensures NameOk("response_type") && NameOk("client_id") && NameOk("redirect_uri") && NameOk("scope") && NameOk("code_challenge")
  {
  }

  lemma MiddleNames()
    ensures NameOk("code_challenge_method") && NameOk("state") && NameOk("originator")
  {
  }

  lemma LastNames()
    ensures NameOk("id_token_add_organizations") && NameOk("codex_cli_simplified_flow")
  {
  }

  predicate FirstAt(names: seq<string>, i: nat)
    requires i < |names|
  {
    forall j :: 0 <= j < i ==> names[j] != names[i]
  }

  lemma NamesDiffer()
    ensures forall i :: 0 <= i < 10 ==> FirstAt(NAMES, i)
  {
    assert |NAMES[0]| == 13 && |NAMES[1]| == 9 && |NAMES[2]| == 12 && |NAMES[3]| == 5 && |NAMES[4]| == 14 && |NAMES[5]| == 21;
    assert |NAMES[6]| == 5 && |NAMES[7]| == 26 && |NAMES[8]| == 25 && |NAMES[9]| == 10 && NAMES[3][1] == 'c' && NAMES[6][1] == 't';
  }

  lemma {:induction false} LookupAt(pairs: seq<Pair>, i: nat)
    requires i < |pairs| && forall j :: 0 <= j < i ==> pairs[j].key != pairs[i].key
    ensures Lookup(pairs, pairs[i].key) == pairs[i].value
  {
    if i > 0 {
      assert pairs[1..][i - 1] == pairs[i];
      LookupAt(pairs[1..], i - 1);
    }
  }

  /** Parameter i of a query, as the server reads it. */
  function Read(query: string, names: seq<string>, i: nat): string
    requires i < |names|
  {
    Decode(Param(query, names[i]), true)
  }

  /** What the authorization server reads back from a sign-in URL, for any bytes. */
  lemma SignInRoundTrip(base: string, r: SignIn)
    requires Sendable(r) && '?' !in base
    ensures var query := QueryOf(SignInUrl(base, r));
            && Read(query, NAMES, 1) == r.clientId && Read(query, NAMES, 2) == r.redirect && Read(query, NAMES, 3) == r.scope
            && Read(query, NAMES, 4) == r.challenge && Read(query, NAMES, 6) == r.state
            && Param(query, NAMES[0]) == "code" && Param(query, NAMES[5]) == "S256"
            && Param(query, NAMES[7]) == "true" && Param(query, NAMES[8]) == "true" && Param(query, NAMES[9]) == "pi"
  {
    NamesOk();
    NamesDiffer();
    QueryOfUrl(base, Print(SignInPairs(NAMES, r)));
    ReadByName(NAMES, r);
    ReadFixed(NAMES, r);
  }

  lemma BuiltInBytes()
    ensures AllBytes(CLIENT_ID) && AllBytes(SCOPE)
  {
  }

  lemma BuiltInAddress()
    ensures '?' !in AUTHORIZE_URL
  {
  }

  function Request(state: string, challenge: string, redirect: string): SignIn {
    SignIn(CLIENT_ID, redirect, SCOPE, challenge, state)
  }

  /** The same for the client, scope and address that are built in. */
  lemma AuthorizeRoundTrip(state: string, challenge: string, redirect: string)
    requires AllBytes(state) && AllBytes(challenge) && AllBytes(redirect)
    ensures Sendable(Request(state, challenge, redirect))
    ensures var query := QueryOf(SignInUrl(AUTHORIZE_URL, Request(state, challenge, redirect)));
            && Decode(Param(query, "state"), true) == state
            && Decode(Param(query, "code_challenge"), true) == challenge
            && Decode(Param(query, "redirect_uri"), true) == redirect
            && Decode(Param(query, "client_id"), true) == CLIENT_ID
            && Decode(Param(query, "scope"), true) == SCOPE
            && Param(query, "response_type") == "code" && Param(query, "code_challenge_method") == "S256"
  {
    BuiltInBytes();
    BuiltInAddress();
    SignInRoundTrip(AUTHORIZE_URL, Request(state, challenge, redirect));
  }

  lemma ReadByName(names: seq<string>, r: SignIn)
    requires Sendable(r) && |names| == 10 && forall i :: 0 <= i < 10 ==> NameOk(names[i]) && FirstAt(names, i)
    ensures var query := Print(SignInPairs(names, r));
            && Read(query, names, 1) == r.clientId && Read(query, names, 2) == r.redirect && Read(query, names, 3) == r.scope
            && Read(query, names, 4) == r.challenge && Read(query, names, 6) == r.state
  {
    var pairs := SignInPairs(names, r);
    PairsClean(names, r);
    PairsNamed(names, r);
    ReadNamed(pairs, names, 1, r.clientId);
    ReadNamed(pairs, names, 2, r.redirect);
    ReadNamed(pairs, names, 3, r.scope);
    ReadNamed(pairs, names, 4, r.challenge);
    ReadNamed(pairs, names, 6, r.state);
  }

  lemma ReadFixed(names: seq<string>, r: SignIn)
    requires Sendable(r) && |names| == 10 && forall i :: 0 <= i < 10 ==> NameOk(names[i]) && FirstAt(names, i)
    ensures var query := Print(SignInPairs(names, r));
            && Param(query, names[0]) == "code" && Param(query, names[5]) == "S256"
            && Param(query, names[7]) == "true" && Param(query, names[8]) == "true" && Param(query, names[9]) == "pi"
  {
    var pairs := SignInPairs(names, r);
    PairsClean(names, r);
    PairsNamed(names, r);
    ParamAt(pairs, names, 0);
    ParamAt(pairs, names, 5);
    ParamAt(pairs, names, 7);
    ParamAt(pairs, names, 8);
    ParamAt(pairs, names, 9);
  }

  lemma ParamAt(pairs: seq<Pair>, names: seq<string>, i: nat)
    requires i < |pairs| == |names| && FirstAt(names, i)
    requires (forall p :: p in pairs ==> Clean(p)) && forall j :: 0 <= j < |pairs| ==> pairs[j].key == names[j]
    ensures Param(Print(pairs), names[i]) == pairs[i].value
  {
    assert pairs[i] in pairs;
    QueryRoundTrip(pairs, pairs[i].key);
    LookupAt(pairs, i);
  }

  lemma PairsNamed(names: seq<string>, r: SignIn)
    requires Sendable(r) && |names| == 10
    ensures forall j :: 0 <= j < 10 ==> SignInPairs(names, r)[j].key == names[j]
  {
  }

  lemma ReadNamed(pairs: seq<Pair>, names: seq<string>, i: nat, value: string)
    requires AllBytes(value) && i < |pairs| == |names| && pairs[i].value == Encode(value) && FirstAt(names, i)
    requires (forall p :: p in pairs ==> Clean(p)) && forall j :: 0 <= j < |pairs| ==> pairs[j].key == names[j]
    ensures Read(Print(pairs), names, i) == value
  {
    ReadBack(pairs, i, value);
  }

  lemma ReadBack(pairs: seq<Pair>, i: nat, value: string)
    requires AllBytes(value) && i < |pairs| && pairs[i].value == Encode(value)
    requires forall j :: 0 <= j < |pairs| ==> Clean(pairs[j])
    requires forall j :: 0 <= j < i ==> pairs[j].key != pairs[i].key
    ensures Decode(Param(Print(pairs), pairs[i].key), true) == value
  {
    QueryRoundTrip(pairs, pairs[i].key);
    LookupAt(pairs, i);
    EncodeRoundTrip(value, true);
  }

  // ---------- the pasted code ----------

  const CODE: string := "code"
  const CODE_IS: string := "code="

  function ManualCode(input: string): string {
    if !Contains(input, CODE_IS) then Decode(input, false) else Decode(Param(QueryOf(input), CODE), true)
  }

  method ParseManualCode(input: string) returns (code: string)
    ensures code == ManualCode(input)
  {
    if Find(input, "code=", 0).None? {
      code := UrlDecodePercentOnly(input);
      return;
    }
    var pos := Find(input, "?", 0);
    var query := if pos.None? then input else input[pos.value + 1..];
    var raw := ExtractQueryParam(query, "code");
    code := UrlDecode(raw);
  }

  /** A code pasted in its encoded form comes back, whatever its bytes. */
  lemma PastedCode(code: string)
    requires AllBytes(code)
    ensures ManualCode(Encode(code)) == code
  {
    EncodedAlphabet(code);
    var s := Encode(code);
    forall k | 0 <= k && k + 5 <= |s| ensures !OccursAt(s, CODE_IS, k) {
      assert s[k + 4] in s && CODE_IS[4] == '=';
      NotAt(s, CODE_IS, k, 4);
    }
    EncodeRoundTrip(code, false);
  }

  /** A code pasted as it is comes back unless it holds a percent sign or looks like a parameter; plus signs stay. */
  lemma PastedRaw(code: string)
    requires '%' !in code && !Contains(code, CODE_IS)
    ensures ManualCode(code) == code
  {
    DecodePlain(code, "", false);
    assert code + "" == code;
  }

  /** The query of a redirect URL alone does as well. */
  lemma PastedQuery(pairs: seq<Pair>, i: nat, code: string)
    requires AllBytes(code) && i < |pairs| && pairs[i] == Pair(CODE, Encode(code)) && '?' !in Print(pairs)
    requires forall j :: 0 <= j < |pairs| ==> Clean(pairs[j])
    requires forall j :: 0 <= j < i ==> pairs[j].key != CODE
    ensures ManualCode(Print(pairs)) == code
  {
    var query := Print(pairs);
    NotFound(query, '?', 0);
    HoldsCode(pairs, i, []);
    assert [] + query == query;
    ReadBack(pairs, i, code);
  }

  /**
    A pasted redirect URL gives its code back: any base without a question
    mark, any other parameters before or after the first `code`.
   */
  lemma PastedUrl(base: string, pairs: seq<Pair>, i: nat, code: string)
    requires AllBytes(code) && '?' !in base && i < |pairs| && pairs[i] == Pair(CODE, Encode(code))
    requires forall j :: 0 <= j < |pairs| ==> Clean(pairs[j])
    requires forall j :: 0 <= j < i ==> pairs[j].key != CODE
    ensures ManualCode(base + "?" + Print(pairs)) == code
  {
    var url := base + "?" + Print(pairs);
    QueryOfUrl(base, Print(pairs));
    HoldsCode(pairs, i, base + "?");
    ReadBack(pairs, i, code);
  }

  lemma HoldsCode(pairs: seq<Pair>, i: nat, front: string)
    requires i < |pairs| && pairs[i].key == CODE
    ensures Contains(front + Print(pairs), CODE_IS)
  {
    var at := PrintedAt(pairs, i);
    OccursLater(front, Print(pairs), CODE_IS, at);
  }

  lemma OccursLater(a: string, b: string, pat: string, k: nat)
    requires OccursAt(b, pat, k)
    ensures Contains(a + b, pat)
  {
    assert (a + b)[|a| + k..|a| + k + |pat|] == b[k..k + |pat|];
    assert OccursAt(a + b, pat, |a| + k);
  }

  /** Where the key of pair i stands in the printed query. */
  lemma {:induction false} PrintedAt(pairs: seq<Pair>, i: nat) returns (at: nat)
    requires i < |pairs|
    ensures OccursAt(Print(pairs), pairs[i].key + "=", at)
  {
    var s := Print(pairs);
    if i == 0 {
      at := 0;
      assert s[..|pairs[0].key + "="|] == pairs[0].key + "=";
    } else {
      var k := PrintedAt(pairs[1..], i - 1);
      var head := PrintPair(pairs[0]) + "&";
      at := |head| + k;
      assert s == head + Print(pairs[1..]);
      assert s[at..at + |pairs[i].key + "="|] == Print(pairs[1..])[k..k + |pairs[i].key + "="|];
    }
  }
}
