/**
 * The adopter's swipe page (frontend/src/app/swipe/page.tsx): the matches are
 * fetched once on mount, shown one card at a time, and the user either skips
 * a card or applies for the pet on it; both move to the next card.
 */
module Swipe {
  import opened Wrappers
  import opened Api
  import opened Session
  import Text

  const NotLoggedIn := "Not logged in — please log in again"
  const MissingToken := "Missing access token — try logging out and back in"
  const FetchFailed := "Failed to fetch matches — check console"
  const Submitted := "Application submitted! 🐾"
  const ApplyFailed := "Failed to apply"

  /** The message of the Error thrown for a non-2xx response to GET /matches. */
  function BackendError(status: nat, text: string): (message: string)
    ensures message == "Backend error " + Text.Decimal(status) + ": " + text
    ensures Text.StartsWith(message, "Backend error ")
    ensures Text.Contains(message, Text.Decimal(status))
    ensures Text.Contains(message, text)
  {
    var message := "Backend error " + Text.Decimal(status) + ": " + text;
    Text.ContainsSuffix("Backend error " + Text.Decimal(status) + ": ", text);
    assert Text.OccursAt(message, Text.Decimal(status), 14);
    message
  }

  /** `err.message || "Failed to fetch matches — check console"` for a failed fetch. */
  function FetchErrorMessage(outcome: HttpOutcome<seq<Pet>>): (message: string)
    requires !outcome.Ok?
    ensures message != ""
    ensures outcome.HttpError? ==> message == BackendError(outcome.status, outcome.text)
    ensures outcome.Thrown? && outcome.message != "" ==> message == outcome.message
    ensures outcome.Thrown? && outcome.message == "" ==> message == FetchFailed
  {
    match outcome
    case HttpError(status, text) => BackendError(status, text)
    case Thrown(message) => if message != "" then message else FetchFailed
  }

  /** What the page renders. */
  datatype Screen =
    | LoadingScreen
    | ErrorScreen(message: string)
    | EmptyScreen
    | CardScreen(pet: Pet)

  /**
   * The render's priority: loading, then the error, then the empty state
   * (no pets, or every pet seen), and only then the card at `index`, which is
   * therefore always in bounds.
   */
  function SelectScreen(loading: bool, error: string, pets: seq<Pet>, index: nat): (screen: Screen)
    ensures screen == LoadingScreen <==> loading
    ensures screen.ErrorScreen? <==> !loading && error != ""
    ensures screen.ErrorScreen? ==> screen.message == error
    ensures screen == EmptyScreen <==> !loading && error == "" && index >= |pets|
    ensures screen.CardScreen? ==> index < |pets| && screen.pet == pets[index]
  {
    if loading then LoadingScreen
    else if error != "" then ErrorScreen(error)
    else if |pets| == 0 || index >= |pets| then EmptyScreen
    else CardScreen(pets[index])
  }

  /** The state of one mounted swipe page. */
  class SwipePage {
    var pets: seq<Pet>
    var currentIndex: nat
    var loading: bool
    var error: string

    constructor ()
      ensures pets == [] && currentIndex == 0 && loading && error == ""
    {
      pets := [];
      currentIndex := 0;
      loading := true;
      error := "";
    }

    function Render(): (screen: Screen)
      reads this
      ensures screen.CardScreen? ==> currentIndex < |pets| && screen.pet == pets[currentIndex]
    {
      SelectScreen(loading, error, pets, currentIndex)
    }

    /**
     * The mount effect. Without a user, or with a user but no token, it sets
     * the matching error and sends nothing (the user is checked first).
     * Otherwise it sends GET /matches with the token and settles on the
     * outcome: the pets on success, an error message otherwise. Every path
     * ends with loading false, and an error once set is never cleared.
     */
    method Load(user: Option<User>, token: Option<string>, outcome: HttpOutcome<seq<Pet>>)
      returns (sent: Option<Request>)
      modifies this`pets, this`loading, this`error
      ensures !loading
      ensures user.None? ==> sent == None && error == NotLoggedIn && pets == old(pets)
      ensures user.Some? && !HasToken(token) ==> sent == None && error == MissingToken && pets == old(pets)
      ensures user.Some? && HasToken(token) ==> sent == Some(Request("GET", "/matches", token.value, NoBody))
      ensures sent.Some? && outcome.Ok? ==> pets == outcome.body && error == old(error)
      ensures sent.Some? && !outcome.Ok? ==> pets == old(pets) && error == FetchErrorMessage(outcome)
      ensures old(error) != "" ==> error != ""
    {
      if user.None? {
        error := NotLoggedIn;
        loading := false;
        return None;
      }
      if !HasToken(token) {
        error := MissingToken;
        loading := false;
        return None;
      }
      sent := Some(Request("GET", "/matches", token.value, NoBody));
      match outcome {
        case Ok(data) =>
          pets := data;
        case HttpError(_, _) =>
          error := FetchErrorMessage(outcome);
        case Thrown(_) =>
          error := FetchErrorMessage(outcome);
      }
      loading := false;
    }

    /**
     * The apply button. Nothing happens when there is no pet at the current
     * index or no token. Otherwise the page POSTs the current pet's id and
     * moves to the next card whatever the outcome; only a thrown Error is
     * announced as a failure, so a non-2xx answer is still reported as
     * submitted.
     */
    method Apply(token: Option<string>, outcome: HttpOutcome<()>)
      returns (sent: Option<Request>, notice: Option<string>)
      modifies this`currentIndex
      ensures old(currentIndex) < |pets| && HasToken(token) ==>
        sent == Some(Request("POST", "/applications", token.value, PetIdBody(pets[old(currentIndex)].id))) &&
        currentIndex == old(currentIndex) + 1 &&
        notice == Some(if outcome.Thrown? then ApplyFailed else Submitted)
      ensures !(old(currentIndex) < |pets| && HasToken(token)) ==>
        sent == None && notice == None && currentIndex == old(currentIndex)
    {
      if currentIndex >= |pets| || !HasToken(token) {
        return None, None;
      }
      sent := Some(Request("POST", "/applications", token.value, PetIdBody(pets[currentIndex].id)));
      if outcome.Thrown? {
        notice := Some(ApplyFailed);
      } else {
        notice := Some(Submitted);
      }
      currentIndex := currentIndex + 1;
    }

    /** The skip button: the next card, and nothing else changes. */
    method NextPet()
      modifies this`currentIndex
      ensures currentIndex == old(currentIndex) + 1
    {
      currentIndex := currentIndex + 1;
    }
  }

  /** An empty list of matches shows the empty state, not loading or an error. */
  method NoMatchesShowsEmptyState(user: User, token: string)
    requires token != ""
  {
    var page := new SwipePage();
    var sent := page.Load(Some(user), Some(token), Ok([]));
    assert page.Render() == EmptyScreen;
  }

  /** Skipping both of two matches reaches the empty state. */
  method SkippingEveryMatchShowsEmptyState(user: User, token: string, first: Pet, second: Pet)
    requires token != ""
  {
    var page := new SwipePage();
    var sent := page.Load(Some(user), Some(token), Ok([first, second]));
    assert page.Render() == CardScreen(first);
    page.NextPet();
    assert page.Render() == CardScreen(second);
    page.NextPet();
    assert page.Render() == EmptyScreen;
  }

  lemma Decimal401()
    ensures Text.Decimal(401) == "401"
  {
    assert Text.Decimal(4) == "4";
    assert Text.Decimal(40) == Text.Decimal(4) + [Text.DigitChar(0)];
    assert Text.Decimal(401) == Text.Decimal(40) + [Text.DigitChar(1)];
  }

  /** A 401 from GET /matches shows an error that mentions 401. */
  method UnauthorizedShowsStatus(user: User, token: string, text: string)
    requires token != ""
  {
    var page := new SwipePage();
    var sent := page.Load(Some(user), Some(token), HttpError(401, text));
    var screen := page.Render();
    assert screen == ErrorScreen(BackendError(401, text));
    Decimal401();
    assert Text.Contains(screen.message, "401");
  }
}
