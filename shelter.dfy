/**
 * The shelter's listing form (frontend/src/app/shelter/page.tsx): four text
 * fields edited one at a time and a submit that POSTs them to /pets, with a
 * message line that is shown in the error colour when it mentions "Error".
 */
module Shelter {
  import opened Wrappers
  import opened Api
  import opened Session
  import Text

  const NotAuthenticated := "Not authenticated — please log out and back in"
  const PetAdded := "Pet added successfully! 🐾"

  /** The message is shown in red rather than green: `message.includes("Error")`. */
  predicate ShownAsError(message: string) {
    Text.Contains(message, "Error")
  }

  datatype Colour = Red | Green

  /** The message line under the heading: absent, or a text in a colour. */
  datatype MessageLine = Hidden | Shown(text: string, colour: Colour)

  /**
   * `{message && <p className={message.includes("Error") ? red : green}>}`:
   * an empty message renders nothing; any other message is shown as it is,
   * in red exactly when "Error" occurs in it somewhere.
   */
  function Line(message: string): (line: MessageLine)
    ensures line.Hidden? <==> message == ""
    ensures line.Shown? ==> line.text == message
    ensures line.Shown? ==> (line.colour == Red <==> exists k: nat :: Text.OccursAt(message, "Error", k))
  {
    if message == "" then Hidden
    else Shown(message, if ShownAsError(message) then Red else Green)
  }

  /**
   * The message after a failed POST /pets: "Error: " and the thrown Error's
   * message, which for a non-2xx answer is the body text, or "Error " and
   * the status when the body is empty. Every such message shows as an error.
   */
  function FailureMessage(outcome: HttpOutcome<()>): (message: string)
    requires !outcome.Ok?
    ensures Line(message) == Shown(message, Red)
    ensures outcome.HttpError? && outcome.text != "" ==> message == "Error: " + outcome.text
    ensures outcome.HttpError? && outcome.text == "" ==> message == "Error: Error " + Text.Decimal(outcome.status)
    ensures outcome.Thrown? ==> message == "Error: " + outcome.message
  {
    var thrown := match outcome
      case HttpError(status, text) => if text != "" then text else "Error " + Text.Decimal(status)
      case Thrown(m) => m;
    Text.ContainsPrefix("Error", ": " + thrown);
    assert "Error" + (": " + thrown) == "Error: " + thrown;
    "Error: " + thrown
  }

  // The literals are cut into eight-character pieces so that the solver
  // checks each piece for 'E' on its own.

  lemma SuccessNoticePieces()
    ensures PetAdded == "Pet adde" + "d succes" + "sfully! " + "🐾"
  {
  }

  lemma SuccessNoticePiecesLackE()
    ensures 'E' !in "Pet adde" && 'E' !in "d succes" && 'E' !in "sfully! " && 'E' !in "🐾"
  {
  }

  lemma SuccessNoticeLacksE()
    ensures 'E' !in PetAdded
  {
    SuccessNoticePieces();
    SuccessNoticePiecesLackE();
  }

  lemma MissingTokenNoticePieces()
    ensures NotAuthenticated == "Not auth" + "enticate" + "d — plea" + "se log o" + "ut and b" + "ack in"
  {
  }

  lemma MissingTokenNoticePiecesLackE()
    ensures 'E' !in "Not auth" && 'E' !in "enticate" && 'E' !in "d — plea"
    ensures 'E' !in "se log o" && 'E' !in "ut and b" && 'E' !in "ack in"
  {
  }

  lemma MissingTokenNoticeLacksE()
    ensures 'E' !in NotAuthenticated
  {
    MissingTokenNoticePieces();
    MissingTokenNoticePiecesLackE();
  }

  /** The success notice does not mention "Error", so it is shown in green. */
  lemma SuccessNoticeColour()
    ensures Line(PetAdded) == Shown(PetAdded, Green)
  {
    SuccessNoticeLacksE();
    Text.AbsentFirstChar(PetAdded, "Error");
  }

  /**
   * The missing-token notice does not mention "Error" either, so it is shown
   * in the success colour although nothing was sent.
   */
  lemma MissingTokenNoticeColour()
    ensures Line(NotAuthenticated) == Shown(NotAuthenticated, Green)
  {
    MissingTokenNoticeLacksE();
    Text.AbsentFirstChar(NotAuthenticated, "Error");
  }

  /** The state of one mounted shelter page. */
  class ShelterPage {
    var form: PetForm
    var message: string

    constructor ()
      ensures form == EmptyForm && message == ""
    {
      form := EmptyForm;
      message := "";
    }

    method EditName(value: string)
      modifies this`form
      ensures form == old(form).(name := value)
    {
      form := form.(name := value);
    }

    method EditSpecies(value: string)
      modifies this`form
      ensures form == old(form).(species := value)
    {
      form := form.(species := value);
    }

    method EditDescription(value: string)
      modifies this`form
      ensures form == old(form).(description := value)
    {
      form := form.(description := value);
    }

    method EditTraits(value: string)
      modifies this`form
      ensures form == old(form).(traitsDescription := value)
    {
      form := form.(traitsDescription := value);
    }

    /**
     * The "Add Pet" button. Without a token it only sets the
     * missing-token message. Otherwise it POSTs exactly the current form;
     * success clears all four fields and announces it, any failure keeps
     * the fields so the user can retry.
     */
    method AddPet(token: Option<string>, outcome: HttpOutcome<()>) returns (sent: Option<Request>)
      modifies this
      ensures !HasToken(token) ==> sent == None && message == NotAuthenticated && form == old(form)
      ensures HasToken(token) ==> sent == Some(Request("POST", "/pets", token.value, PetFormBody(old(form))))
      ensures HasToken(token) && outcome.Ok? ==> message == PetAdded && form == EmptyForm
      ensures HasToken(token) && !outcome.Ok? ==> message == FailureMessage(outcome) && form == old(form)
    {
      if !HasToken(token) {
        message := NotAuthenticated;
        return None;
      }
      sent := Some(Request("POST", "/pets", token.value, PetFormBody(form)));
      if outcome.Ok? {
        message := PetAdded;
        form := EmptyForm;
      } else {
        message := FailureMessage(outcome);
      }
    }
  }

  /** A 500 with body "db error" is reported with that text and the form is kept. */
  method ServerErrorKeepsForm(token: string, name: string, species: string)
    requires token != ""
  {
    var page := new ShelterPage();
    page.EditName(name);
    page.EditSpecies(species);
    var before := page.form;
    var sent := page.AddPet(Some(token), HttpError(500, "db error"));
    assert page.message == "Error: db error";
    Text.ContainsSuffix("Error: ", "db error");
    assert Text.Contains(page.message, "db error");
    assert Line(page.message) == Shown("Error: db error", Red);
    assert page.form == before && page.form.name == name && page.form.species == species;
  }

  /** Without a token nothing is sent, whatever the network would have answered. */
  method NoTokenSendsNothing(outcome: HttpOutcome<()>)
  {
    var page := new ShelterPage();
    var sent := page.AddPet(None, outcome);
    assert sent == None;
    MissingTokenNoticeColour();
    assert Line(page.message) == Shown(NotAuthenticated, Green);
  }
}
