/**
 * How a home-screen widget presents a failure: an SF Symbol name, a title
 * and a message. A service error carries the API error, of which only its
 * localised description is used.
 */
module WidgetErrors {

  /** An API error, as far as the widget uses it: its localised description. */
  datatype ServiceError = ServiceError(localizedDescription: string)

  datatype WidgetError = Unauthorized | Service(error: ServiceError)

  const UnauthorizedIcon: string := "hand.raised"
  const ServiceIcon: string := "exclamationmark.triangle"
  const UnauthorizedTitle: string := "Unauthorized!"
  const ServiceTitle: string := "Service Error!"
  const SignInPrompt: string := "Sign in or create a new account\nto gain access to all features"

  function Icon(e: WidgetError): (icon: string)
    ensures icon == (if e.Unauthorized? then UnauthorizedIcon else ServiceIcon)
  {
    match e
    case Unauthorized => "hand.raised"
    case Service(_) => "exclamationmark.triangle"
  }

  function Title(e: WidgetError): (title: string)
    ensures title == (if e.Unauthorized? then UnauthorizedTitle else ServiceTitle)
  {
    match e
    case Unauthorized => "Unauthorized!"
    case Service(_) => "Service Error!"
  }

  function Message(e: WidgetError): (message: string)
    ensures e.Unauthorized? ==> message == SignInPrompt
    ensures e.Service? ==> message == e.error.localizedDescription
  {
    match e
    case Unauthorized => "Sign in or create a new account\nto gain access to all features"
    case Service(error) => error.localizedDescription
  }

  /** The sign-in prompt breaks its two lines after "account". */
  lemma SignInPromptLineBreak()
    ensures |SignInPrompt| == 62 && SignInPrompt[31] == '\n'
    ensures SignInPrompt[..31] == "Sign in or create a new account"
  {
  }

  /** Icon and title depend only on the case; the message of a service error is its description. */
  lemma ServicePresentation(a: ServiceError, b: ServiceError)
    ensures Icon(Service(a)) == Icon(Service(b)) && Title(Service(a)) == Title(Service(b))
    ensures Message(Service(a)) == Message(Service(b)) <==> a.localizedDescription == b.localizedDescription
  {
  }

  /** The icon, and likewise the title, tells the two cases apart. */
  lemma IconAndTitleIdentifyCase(e1: WidgetError, e2: WidgetError)
    ensures Icon(e1) == Icon(e2) <==> e1.Unauthorized? == e2.Unauthorized?
    ensures Title(e1) == Title(e2) <==> e1.Unauthorized? == e2.Unauthorized?
  {
    assert UnauthorizedIcon[0] != ServiceIcon[0];
    assert UnauthorizedTitle[0] != ServiceTitle[0];
  }

  /** The message alone does not: a service error may carry the sign-in prompt as its description. */
  lemma MessageDoesNotIdentifyCase()
    ensures Message(Service(ServiceError(SignInPrompt))) == Message(Unauthorized)
    ensures Icon(Service(ServiceError(SignInPrompt))) != Icon(Unauthorized)
  {
    IconAndTitleIdentifyCase(Service(ServiceError(SignInPrompt)), Unauthorized);
  }
}
