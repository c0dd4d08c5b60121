/** The registration form: the four text fields, the password-strength meter
    with its three bars, the indicator telling whether the confirmation matches,
    and the submission that refuses a mismatched confirmation. */
module RegisterForm {
  import opened Text

  /** The form's text fields; `handleChange` is keyed by the input's name. */
  datatype Field = FullName | Email | Password | ConfirmPassword

  datatype FormData = FormData(fullName: string, email: string, password: string, confirmPassword: string)
  {
    /** The value of one field. */
    function Get(field: Field): string
    {
      match field
      case FullName => fullName
      case Email => email
      case Password => password
      case ConfirmPassword => confirmPassword
    }

    /** `{ ...prev, [name]: value }`: the named field takes the new value. */
    function With(field: Field, value: string): (r: FormData)
      ensures r.Get(field) == value
      ensures forall other :: other != field ==> r.Get(other) == Get(other)
    {
      match field
      case FullName => this.(fullName := value)
      case Email => this.(email := value)
      case Password => this.(password := value)
      case ConfirmPassword => this.(confirmPassword := value)
    }
  }

  const EmptyForm := FormData("", "", "", "")

  // ---------------------------------------------------------------------------
  // The strength meter

  datatype Strength = Weak | Medium | Strong

  /** The position of a strength on the meter, weakest first. */
  function Rank(s: Strength): nat
  {
    match s
    case Weak => 1
    case Medium => 2
    case Strong => 3
  }

  /** `passwordStrength`: decided by the password's length alone. */
  function PasswordStrength(password: string): (s: Strength)
    ensures s == Strong <==> |password| >= 8
    ensures s == Medium <==> 4 <= |password| < 8
    ensures s == Weak <==> |password| < 4
  {
    if |password| >= 8 then Strong else if |password| >= 4 then Medium else Weak
  }

  /** A longer password never rates weaker. */
  lemma StrengthMonotone(p: string, q: string)
    requires |p| <= |q|
    ensures Rank(PasswordStrength(p)) <= Rank(PasswordStrength(q))
  {
  }

  datatype Colour = Green | Yellow | Red | Neutral

  /** The colour of bar `i` (1, 2 or 3) for a strength. */
  function BarColour(s: Strength, i: int): (c: Colour)
    ensures s == Strong ==> c == Green
    ensures s == Medium ==> (c == Yellow <==> i <= 2) && (c == Neutral <==> i > 2)
    ensures s == Weak ==> (c == Red <==> i == 1) && (c == Neutral <==> i != 1)
  {
    match s
    case Strong => Green
    case Medium => if i <= 2 then Yellow else Neutral
    case Weak => if i == 1 then Red else Neutral
  }

  /** The three bars, left to right. */
  function Bars(s: Strength): (bars: seq<Colour>)
    ensures |bars| == 3
    ensures forall k :: 0 <= k < 3 ==> bars[k] == BarColour(s, k + 1)
  {
    [BarColour(s, 1), BarColour(s, 2), BarColour(s, 3)]
  }

  /** The number of bars that are lit, that is not neutral. */
  function LitBars(bars: seq<Colour>): nat
  {
    if bars == [] then 0
    else (if bars[0] == Neutral then 0 else 1) + LitBars(bars[1..])
  }

  /** The meter lights as many bars as the strength's rank, from the left, in
      one colour. */
  lemma BarsLight(s: Strength)
    ensures LitBars(Bars(s)) == Rank(s)
    ensures forall k :: 0 <= k < 3 ==> (Bars(s)[k] != Neutral <==> k < Rank(s))
    ensures forall k, m :: 0 <= k < m < 3 && Bars(s)[m] != Neutral ==> Bars(s)[k] == Bars(s)[m]
  {
    var bars := Bars(s);
    assert bars[1..][1..][1..] == [];
  }

  /** A longer password lights at least as many bars. */
  lemma BarsMonotone(p: string, q: string)
    requires |p| <= |q|
    ensures LitBars(Bars(PasswordStrength(p))) <= LitBars(Bars(PasswordStrength(q)))
  {
    BarsLight(PasswordStrength(p));
    BarsLight(PasswordStrength(q));
    StrengthMonotone(p, q);
  }

  // ---------------------------------------------------------------------------
  // The match indicator

  datatype Indicator = Hidden | Matching | NotMatching

  /** Shown once a confirmation is typed; it tells whether the two agree. */
  function MatchIndicator(form: FormData): (ind: Indicator)
    ensures ind == Hidden <==> form.confirmPassword == ""
    ensures ind == Matching <==> form.confirmPassword != "" && form.password == form.confirmPassword
    ensures ind == NotMatching <==> form.confirmPassword != "" && form.password != form.confirmPassword
  {
    if form.confirmPassword == "" then Hidden
    else if form.password == form.confirmPassword then Matching
    else NotMatching
  }

  // ---------------------------------------------------------------------------
  // Submission

  const MismatchAlert := "Passwords do not match"
  const FailedAlert := "Registration failed"
  const ServerErrorAlert := "Server error"
  const LoginRoute := "/auth/login"

  /** The body posted to `/api/auth/register`. */
  datatype RegisterRequest = RegisterRequest(username: string, email: string, password: string)

  /** The outcome of the post: the reply body, or a thrown error with the
      message of its response body, if any. */
  datatype RegisterReply = Body(success: bool, message: Option<string>) | Threw(responseMessage: Option<string>)

  /** What one submission does, apart from the loading flag. */
  datatype Submission = Submission(request: Option<RegisterRequest>, alert: Option<string>, navigateTo: Option<string>)

  class Form {
    var formData: FormData
    var isLoading: bool
    var showPassword: bool
    var showConfirmPassword: bool

    constructor ()
      ensures formData == EmptyForm && !isLoading && !showPassword && !showConfirmPassword
    {
      formData := EmptyForm;
      isLoading := false;
      showPassword := false;
      showConfirmPassword := false;
    }

    /** `handleChange`: the named field takes the typed value. */
    method HandleChange(field: Field, value: string)
      modifies this
      ensures formData.Get(field) == value
      ensures forall other :: other != field ==> formData.Get(other) == old(formData).Get(other)
      ensures isLoading == old(isLoading)
      ensures showPassword == old(showPassword) && showConfirmPassword == old(showConfirmPassword)
    {
      formData := formData.With(field, value);
    }

    /** `handleSubmit`: a mismatched confirmation raises an alert and nothing
        else. Otherwise the name, email and password are posted; success leads to
        the login page, a refusal or an error raises the server's message or a
        default. Loading ends either way. */
    method HandleSubmit(reply: RegisterReply) returns (out: Submission)
      modifies this
      ensures formData == old(formData)
      ensures showPassword == old(showPassword) && showConfirmPassword == old(showConfirmPassword)
      ensures formData.password != formData.confirmPassword ==>
        out == Submission(None, Some(MismatchAlert), None) && isLoading == old(isLoading)
      ensures formData.password == formData.confirmPassword ==>
        && out.request == Some(RegisterRequest(formData.fullName, formData.email, formData.password))
        && !isLoading
      ensures formData.password == formData.confirmPassword && reply.Body? && reply.success ==>
        out.alert == None && out.navigateTo == Some(LoginRoute)
      ensures formData.password == formData.confirmPassword && reply.Body? && !reply.success ==>
        out.alert == Some(OrElse(reply.message, FailedAlert)) && out.navigateTo == None
      ensures formData.password == formData.confirmPassword && reply.Threw? ==>
        out.alert == Some(OrElse(reply.responseMessage, ServerErrorAlert)) && out.navigateTo == None
    {
      if formData.password != formData.confirmPassword {
        return Submission(None, Some(MismatchAlert), None);
      }
      isLoading := true;
      var request := RegisterRequest(formData.fullName, formData.email, formData.password);
      match reply {
        case Body(success, message) =>
          if success {
            out := Submission(Some(request), None, Some(LoginRoute));
          } else {
            out := Submission(Some(request), Some(OrElse(message, FailedAlert)), None);
          }
        case Threw(responseMessage) =>
          out := Submission(Some(request), Some(OrElse(responseMessage, ServerErrorAlert)), None);
      }
      isLoading := false;
    }
  }
}
