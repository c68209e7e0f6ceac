/**
 * The request gate of the FastAPI backend (backend/main.py): the bearer-token
 * dependency every endpoint runs first, the embedding helper's short cut for
 * empty text, and the two endpoints whose own checks sit on top of the gate:
 * POST /pets (shelters only; inserts a row) and GET /matches (needs a stored
 * lifestyle vector).
 *
 * The outside world is turned into inputs: `jwt.decode` is the function
 * `decode` (its payload, JWTError, or any other exception it raises), the
 * embedding provider is the
 * function `provider`, and the `pets` and `profiles` tables are fields of a
 * `Database` object.
 */
module Backend {
  import opened Wrappers
  import opened Values
  import Text
  import Api

  /** Decoded token claims: `jwt.decode` yields a JSON object. */
  type Claims = map<string, Json>

  /**
   * What a call of `jwt.decode` does: return a payload, raise JWTError (the
   * one exception get_current_user catches), or raise anything else.
   */
  datatype Decoding =
    | Payload(claims: Claims)
    | JwtError
    | Failure(exception: string)

  /**
   * How a request handler ends: with a value, with an `HTTPException`
   * (status and detail), or with any other exception escaping, which FastAPI
   * answers with status 500.
   */
  datatype Outcome<T> =
    | Done(value: T)
    | Raise(status: nat, detail: string)
    | Crash(exception: string)

  const NotAuthenticated := "Not authenticated"
  const InvalidToken := "Invalid token"
  const InvalidIssuer := "Invalid token issuer"
  const EmailNotVerified := "Email not verified"
  const OnlyShelters := "Only shelters can add pets"
  const SetLifestyleFirst := "Set lifestyle first"

  const EmbeddingDimensions := 1536
  const DefaultMatchLimit := 10

  // ---------------------------------------------------------------------------
  // get_current_user
  // ---------------------------------------------------------------------------

  /** `authorization and authorization.startswith("Bearer ")`, the space included. */
  predicate HasBearerPrefix(authorization: Option<string>) {
    authorization.Some? && authorization.value != "" && Text.StartsWith(authorization.value, "Bearer ")
  }

  /**
   * `authorization.split(" ")[1]`: the text after "Bearer " up to the next
   * space or the end, so "Bearer " alone gives the empty token.
   */
  function BearerToken(authorization: string): (token: string)
    requires Text.StartsWith(authorization, "Bearer ")
    ensures ' ' !in token
    ensures Text.StartsWith(authorization[7..], token)
    ensures 7 + |token| == |authorization| || authorization[7 + |token|] == ' '
  {
    var rest := authorization[7..];
    assert authorization == "Bearer" + [' '] + rest;
    Text.SplitAfterPiece("Bearer", rest, ' ');
    Text.FirstPiece(rest, ' ');
    Text.Split(authorization, ' ')[1]
  }

  /**
   * The header a page sends, `Bearer ${token}`, hands the backend the same
   * token back, as long as the token has no space in it.
   */
  lemma BearerRoundTrip(token: string)
    requires ' ' !in token
    ensures HasBearerPrefix(Some("Bearer " + token))
    ensures BearerToken("Bearer " + token) == token
  {
    var header := "Bearer " + token;
    assert header == "Bearer" + [' '] + token;
    Text.SplitAfterPiece("Bearer", token, ' ');
    Text.SplitWhole(token, ' ');
  }

  /** The issuer claim is present, truthy and contains "supabase". */
  predicate IssuerValid(payload: Claims) {
    PyTruthy(Get(payload, "iss")) && PyContains(Get(payload, "iss"), "supabase") == Some(true)
  }

  predicate EmailConfirmed(payload: Claims) {
    PyTruthy(Get(payload, "email_confirmed_at"))
  }

  /**
   * The checks on a decoded payload, in the order the source makes them:
   * issuer first, then the email confirmation. An issuer that is truthy but
   * not a container makes `in` raise TypeError.
   */
  function CheckClaims(payload: Claims): (r: Outcome<Claims>)
    ensures r.Done? <==> IssuerValid(payload) && EmailConfirmed(payload)
    ensures r.Done? ==> r.value == payload
    ensures r.Crash? <==> PyTruthy(Get(payload, "iss")) && PyContains(Get(payload, "iss"), "supabase").None?
    ensures r.Crash? ==> r.exception == "TypeError"
    ensures !IssuerValid(payload) && !r.Crash? ==> r == Raise(401, InvalidIssuer)
    ensures IssuerValid(payload) && !EmailConfirmed(payload) ==> r == Raise(403, EmailNotVerified)
  {
    var iss := Get(payload, "iss");
    if !PyTruthy(iss) then Raise(401, InvalidIssuer)
    else
      match PyContains(iss, "supabase")
      case None => Crash("TypeError")
      case Some(found) =>
        if !found then Raise(401, InvalidIssuer)
        else if !EmailConfirmed(payload) then Raise(403, EmailNotVerified)
        else Done(payload)
  }

  /**
   * get_current_user: the dependency every endpoint runs before its body.
   * A missing or non-bearer header is refused before anything is decoded;
   * only JWTError from the decoder becomes 401 "Invalid token", so the
   * 401/403 raised by the claim checks keep their own status and detail and
   * any other exception (from the decoder or from the checks) escapes.
   */
  function GetCurrentUser(authorization: Option<string>, decode: string -> Decoding): (r: Outcome<Claims>)
    ensures !HasBearerPrefix(authorization) ==> r == Raise(401, NotAuthenticated)
    ensures HasBearerPrefix(authorization) && decode(BearerToken(authorization.value)).JwtError? ==>
      r == Raise(401, InvalidToken)
    ensures HasBearerPrefix(authorization) && decode(BearerToken(authorization.value)).Failure? ==>
      r == Crash(decode(BearerToken(authorization.value)).exception)
    ensures HasBearerPrefix(authorization) && decode(BearerToken(authorization.value)).Payload? ==>
      r == CheckClaims(decode(BearerToken(authorization.value)).claims)
    ensures r.Done? <==>
      HasBearerPrefix(authorization) && decode(BearerToken(authorization.value)).Payload? &&
      IssuerValid(decode(BearerToken(authorization.value)).claims) &&
      EmailConfirmed(decode(BearerToken(authorization.value)).claims)
    ensures r.Done? ==> decode(BearerToken(authorization.value)) == Payload(r.value)
    ensures r.Raise? ==> r.status == 401 || r.status == 403
    ensures r.Raise? && r.status == 403 ==>
      r.detail == EmailNotVerified && HasBearerPrefix(authorization) &&
      decode(BearerToken(authorization.value)).Payload? &&
      IssuerValid(decode(BearerToken(authorization.value)).claims)
  {
    if !HasBearerPrefix(authorization) then Raise(401, NotAuthenticated)
    else
      match decode(BearerToken(authorization.value))
      case JwtError => Raise(401, InvalidToken)
      case Failure(exception) => Crash(exception)
      case Payload(payload) => CheckClaims(payload)
  }

  /**
   * `jwt.decode(token, options=...)` as line 72 calls it, with no key: the
   * decoder's `key` parameter is required, so the call raises TypeError
   * whatever the token.
   */
  function KeylessDecode(token: string): Decoding {
    Failure("TypeError")
  }

  /**
   * With that call, every request that passes the prefix check ends in a 500
   * (TypeError is not JWTError), so no claim check is ever reached and no
   * request is accepted.
   */
  lemma KeylessGateAcceptsNobody(authorization: Option<string>)
    ensures HasBearerPrefix(authorization) ==> GetCurrentUser(authorization, KeylessDecode) == Crash("TypeError")
    ensures !GetCurrentUser(authorization, KeylessDecode).Done?
  {
  }

  // ---------------------------------------------------------------------------
  // generate_embedding
  // ---------------------------------------------------------------------------

  /**
   * generate_embedding: empty or whitespace-only text gives 1536 zeros and
   * the provider is not asked; any other text gives the provider's vector.
   */
  function GenerateEmbedding(text: string, provider: string -> seq<real>): (v: seq<real>)
    ensures Text.IsBlank(text) ==> |v| == EmbeddingDimensions && forall i :: 0 <= i < |v| ==> v[i] == 0.0
    ensures !Text.IsBlank(text) ==> v == provider(text)
  {
    if Text.IsBlank(text) then seq(EmbeddingDimensions, _ => 0.0) else provider(text)
  }

  // ---------------------------------------------------------------------------
  // create_pet and get_matches
  // ---------------------------------------------------------------------------

  /**
   * `user.get("app_metadata", {}).get("user_type") == "shelter"`; a missing
   * `app_metadata` counts as not a shelter, one that is not a dict raises
   * AttributeError, given as None.
   */
  function IsShelter(user: Claims): (r: Option<bool>)
    ensures "app_metadata" !in user ==> r == Some(false)
    ensures r == Some(true) <==>
      "app_metadata" in user && user["app_metadata"].JObject? &&
      Get(user["app_metadata"].fields, "user_type") == JStr("shelter")
    ensures r.None? <==> "app_metadata" in user && !user["app_metadata"].JObject?
  {
    if "app_metadata" !in user then Some(Get(map[], "user_type") == JStr("shelter"))
    else
      match user["app_metadata"]
      case JObject(metadata) => Some(Get(metadata, "user_type") == JStr("shelter"))
      case _ => None
  }

  /** A row of the `pets` table as create_pet inserts it. */
  datatype PetRow = PetRow(
    shelterId: Json,
    name: string,
    species: string,
    description: string,
    traitsText: string,
    traitVector: seq<real>,
    status: string)

  /** The arguments get_matches passes to the `match_pets` procedure. */
  datatype MatchQuery = MatchQuery(queryVector: Json, matchLimit: int)

  class Database {
    /** The `pets` table, in insertion order. */
    var pets: seq<PetRow>
    /** The `lifestyle_vector` column of the `profiles` table, by profile id. */
    var profiles: map<Json, Json>

    constructor (profiles: map<Json, Json>)
      ensures this.pets == [] && this.profiles == profiles
    {
      this.pets := [];
      this.profiles := profiles;
    }

    /**
     * POST /pets. After the gate, a caller whose `app_metadata.user_type` is
     * not "shelter" is refused with 403; a shelter's form becomes a new row
     * owned by the token's subject, with status "available" and the
     * embedding of the traits text. Nothing is inserted on any failure.
     */
    method CreatePet(pet: Api.PetForm, authorization: Option<string>, decode: string -> Decoding,
                     provider: string -> seq<real>) returns (r: Outcome<PetRow>)
      modifies this`pets
      ensures GetCurrentUser(authorization, decode).Raise? ==>
        r == Raise(GetCurrentUser(authorization, decode).status, GetCurrentUser(authorization, decode).detail)
      ensures GetCurrentUser(authorization, decode).Crash? ==>
        r == Crash(GetCurrentUser(authorization, decode).exception)
      ensures r.Done? <==>
        GetCurrentUser(authorization, decode).Done? &&
        IsShelter(GetCurrentUser(authorization, decode).value) == Some(true) &&
        "sub" in GetCurrentUser(authorization, decode).value
      ensures (GetCurrentUser(authorization, decode).Done? &&
               IsShelter(GetCurrentUser(authorization, decode).value) == Some(false)) ==>
        r == Raise(403, OnlyShelters)
      ensures (GetCurrentUser(authorization, decode).Done? &&
               IsShelter(GetCurrentUser(authorization, decode).value).None?) ==>
        r == Crash("AttributeError")
      ensures (GetCurrentUser(authorization, decode).Done? &&
               IsShelter(GetCurrentUser(authorization, decode).value) == Some(true) &&
               "sub" !in GetCurrentUser(authorization, decode).value) ==>
        r == Crash("KeyError")
      ensures r.Done? ==>
        r.value.shelterId == GetCurrentUser(authorization, decode).value["sub"] &&
        r.value.status == "available" &&
        r.value.name == pet.name && r.value.species == pet.species &&
        r.value.description == pet.description && r.value.traitsText == pet.traitsDescription &&
        r.value.traitVector == GenerateEmbedding(pet.traitsDescription, provider)
      ensures pets == if r.Done? then old(pets) + [r.value] else old(pets)
    {
      var auth := GetCurrentUser(authorization, decode);
      match auth
      case Raise(status, detail) =>
        r := Raise(status, detail);
      case Crash(exception) =>
        r := Crash(exception);
      case Done(user) =>
        var shelter := IsShelter(user);
        if shelter.None? {
          r := Crash("AttributeError");
        } else if !shelter.value {
          r := Raise(403, OnlyShelters);
        } else {
          var vector := GenerateEmbedding(pet.traitsDescription, provider);
          if "sub" !in user {
            r := Crash("KeyError");
          } else {
            var row := PetRow(user["sub"], pet.name, pet.species, pet.description,
                              pet.traitsDescription, vector, "available");
            pets := pets + [row];
            r := Done(row);
          }
        }
    }

    /**
     * GET /matches, up to the call of `match_pets`. After the gate, the
     * caller's profile row is read with `.single()` (which raises when there
     * is no such row); an unset or empty lifestyle vector is refused with 400
     * "Set lifestyle first"; otherwise the query carries the stored vector and
     * the limit, 10 when the request gives none.
     */
    function GetMatches(limit: Option<int>, authorization: Option<string>, decode: string -> Decoding)
      : (r: Outcome<MatchQuery>)
      reads this
      ensures GetCurrentUser(authorization, decode).Raise? ==>
        r == Raise(GetCurrentUser(authorization, decode).status, GetCurrentUser(authorization, decode).detail)
      ensures GetCurrentUser(authorization, decode).Crash? ==>
        r == Crash(GetCurrentUser(authorization, decode).exception)
      ensures r.Done? <==>
        GetCurrentUser(authorization, decode).Done? &&
        "sub" in GetCurrentUser(authorization, decode).value &&
        GetCurrentUser(authorization, decode).value["sub"] in profiles &&
        PyTruthy(profiles[GetCurrentUser(authorization, decode).value["sub"]])
      ensures r.Done? ==>
        r.value.queryVector == profiles[GetCurrentUser(authorization, decode).value["sub"]] &&
        PyTruthy(r.value.queryVector)
      ensures r.Done? ==> r.value.matchLimit == (if limit.Some? then limit.value else DefaultMatchLimit)
      ensures r.Raise? && r.status == 400 <==>
        GetCurrentUser(authorization, decode).Done? &&
        "sub" in GetCurrentUser(authorization, decode).value &&
        GetCurrentUser(authorization, decode).value["sub"] in profiles &&
        !PyTruthy(profiles[GetCurrentUser(authorization, decode).value["sub"]])
      ensures r.Raise? && r.status == 400 ==> r.detail == SetLifestyleFirst
      ensures (GetCurrentUser(authorization, decode).Done? &&
               "sub" !in GetCurrentUser(authorization, decode).value) ==>
        r == Crash("KeyError")
      ensures (GetCurrentUser(authorization, decode).Done? &&
               "sub" in GetCurrentUser(authorization, decode).value &&
               GetCurrentUser(authorization, decode).value["sub"] !in profiles) ==>
        r == Crash("APIError")
    {
      match GetCurrentUser(authorization, decode)
      case Raise(status, detail) => Raise(status, detail)
      case Crash(exception) => Crash(exception)
      case Done(user) =>
        if "sub" !in user then Crash("KeyError")
        else if user["sub"] !in profiles then Crash("APIError")
        else
          var vector := profiles[user["sub"]];
          if !PyTruthy(vector) then Raise(400, SetLifestyleFirst)
          else Done(MatchQuery(vector, limit.GetOr(DefaultMatchLimit)))
    }
  }
}
