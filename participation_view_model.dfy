/**
 * `ParticipationViewModel`: the loading, success and error flags shown by the
 * participation screen, the message chosen for each error, and the project
 * list. The API service calls are opaque replies passed in by the caller.
 */
module Participation {
  import opened Wrappers
  import PC = ProjectCodec

  datatype APIError =
    | InvalidURL
    | NetworkError
    | InvalidResponse
    | AuthenticationError
    | SocialAuthError(reason: string)
    | UnsupportedProvider
    | FetchError

  /** A thrown error: an `APIError` or any other error, each with the
      `localizedDescription` the platform renders for it. */
  datatype Failure = ApiFailure(code: APIError, description: string) | OtherFailure(description: string)

  datatype AuthProvider = Samsung | Apple | Google

  datatype AuthenticationResult = AuthenticationResult(userId: string, authToken: string, provider: AuthProvider)

  const AuthenticationFailedMessage: string := "인증 실패: 유효하지 않은 계정입니다"
  const NetworkErrorMessage: string := "네트워크 오류가 발생했습니다"
  const FetchErrorMessage: string := "헬스 데이터를 가져오는데 실패했습니다"
  const UnknownErrorMessage: string := "알 수 없는 오류가 발생했습니다"
  const ProjectsFailedPrefix: string := "프로젝트 목록을 가져오는데 실패했습니다: "

  /** The message the two authentication methods show for an error. */
  function ErrorMessage(f: Failure): (m: string)
    ensures f.OtherFailure? ==> m == f.description
    ensures f.ApiFailure? ==> m in {AuthenticationFailedMessage, NetworkErrorMessage, FetchErrorMessage, UnknownErrorMessage}
  {
    match f
    case ApiFailure(AuthenticationError, _) => AuthenticationFailedMessage
    case ApiFailure(NetworkError, _) => NetworkErrorMessage
    case ApiFailure(FetchError, _) => FetchErrorMessage
    case ApiFailure(_, _) => UnknownErrorMessage
    case OtherFailure(d) => d
  }

  predicate HasSpecificMessage(e: APIError) {
    e == AuthenticationError || e == NetworkError || e == FetchError
  }

  /** Each of the three named API errors gets its own message; every other
      API error gets the unknown-error message; other errors show their description. */
  lemma ErrorMessageCases(f: Failure)
    ensures f.ApiFailure? && f.code == AuthenticationError ==> ErrorMessage(f) == AuthenticationFailedMessage
    ensures f.ApiFailure? && f.code == NetworkError ==> ErrorMessage(f) == NetworkErrorMessage
    ensures f.ApiFailure? && f.code == FetchError ==> ErrorMessage(f) == FetchErrorMessage
    ensures f.ApiFailure? && !HasSpecificMessage(f.code) ==> ErrorMessage(f) == UnknownErrorMessage
    ensures f.ApiFailure? && HasSpecificMessage(f.code) ==> ErrorMessage(f) != UnknownErrorMessage
    ensures f.OtherFailure? ==> ErrorMessage(f) == f.description
    ensures f.ApiFailure? ==>
      (ErrorMessage(f) in {AuthenticationFailedMessage, NetworkErrorMessage, FetchErrorMessage, UnknownErrorMessage})
  {
  }

  /** An API error's message never depends on its description. */
  lemma ApiMessageIgnoresDescription(e: APIError, d1: string, d2: string)
    ensures ErrorMessage(ApiFailure(e, d1)) == ErrorMessage(ApiFailure(e, d2))
  {
  }

  lemma ApiMessagesDistinct(a: APIError, b: APIError, d: string)
    requires HasSpecificMessage(a) && HasSpecificMessage(b)
    ensures ErrorMessage(ApiFailure(a, d)) == ErrorMessage(ApiFailure(b, d)) <==> a == b
  {
  }

  /** The message `fetchProjects` shows: the fixed prefix, then the description. */
  function ProjectsErrorMessage(f: Failure): (m: string)
    ensures |m| >= |ProjectsFailedPrefix| && m[..|ProjectsFailedPrefix|] == ProjectsFailedPrefix
    ensures m[|ProjectsFailedPrefix|..] == f.description
  {
    ProjectsFailedPrefix + f.description
  }

  /** `UserDefaults.standard` as far as the view model uses it. */
  class UserDefaultsStore {
    var userId: Option<string>

    constructor (userId: Option<string>)
      ensures this.userId == userId
    {
      this.userId := userId;
    }
  }

  class ParticipationViewModel {
    var isLoading: bool
    var showError: bool
    var errorMessage: string
    var showSuccess: bool
    var projects: seq<PC.Project>

    /** After a request completes: not loading, and exactly one banner. */
    ghost predicate Settled()
      reads this
    {
      !isLoading && (showSuccess != showError)
    }

    constructor ()
      ensures !isLoading && !showError && errorMessage == "" && !showSuccess && projects == []
    {
      isLoading := false;
      showError := false;
      errorMessage := "";
      showSuccess := false;
      projects := [];
    }

    /** The first main-actor block of both authentication methods. */
    method BeginRequest()
      modifies this
      ensures isLoading && !showError && !showSuccess
      ensures errorMessage == old(errorMessage) && projects == old(projects)
    {
      isLoading := true;
      showError := false;
      showSuccess := false;
    }

    /** The success block. */
    method CompleteWithSuccess()
      modifies this
      ensures !isLoading && showSuccess
      ensures showError == old(showError) && errorMessage == old(errorMessage) && projects == old(projects)
    {
      isLoading := false;
      showSuccess := true;
    }

    /** The two catch blocks. */
    method CompleteWithError(f: Failure)
      modifies this
      ensures !isLoading && showError && errorMessage == ErrorMessage(f)
      ensures showSuccess == old(showSuccess) && projects == old(projects)
    {
      isLoading := false;
      showError := true;
      errorMessage := ErrorMessage(f);
    }

    /** `authenticate(email:password:)`: `auth` is the service's sign-in reply,
        `fetch` its health-data reply for the signed-in user. */
    method Authenticate(email: string, password: string,
                        auth: Result<AuthenticationResult, Failure>, fetch: Outcome<Failure>)
      modifies this
      ensures Settled() && projects == old(projects)
      ensures showSuccess <==> auth.Ok? && fetch.Pass?
      ensures showSuccess ==> errorMessage == old(errorMessage)
      ensures auth.Err? ==> errorMessage == ErrorMessage(auth.error)
      ensures auth.Ok? && fetch.Fail? ==> errorMessage == ErrorMessage(fetch.error)
    {
      BeginRequest();
      match auth
      case Err(f) =>
        CompleteWithError(f);
      case Ok(_) =>
        match fetch
        case Fail(f) => CompleteWithError(f);
        case Pass => CompleteWithSuccess();
    }

    /** `authenticateAndFetchHealth(with:)`: `reply` is the service's combined
        sign-in and health-data reply; the user id is stored only on success. */
    method AuthenticateAndFetchHealth(provider: AuthProvider, reply: Result<AuthenticationResult, Failure>,
                                      defaults: UserDefaultsStore)
      modifies this, defaults
      ensures Settled() && projects == old(projects)
      ensures showSuccess <==> reply.Ok?
      ensures reply.Ok? ==> errorMessage == old(errorMessage) && defaults.userId == Some(reply.value.userId)
      ensures reply.Err? ==> errorMessage == ErrorMessage(reply.error) && defaults.userId == old(defaults.userId)
    {
      BeginRequest();
      match reply
      case Err(f) =>
        CompleteWithError(f);
      case Ok(result) =>
        defaults.userId := Some(result.userId);
        CompleteWithSuccess();
    }

    /** `fetchProjects()`: success replaces the list; failure keeps it and
        shows the prefixed message. Loading and success flags are untouched. */
    method FetchProjects(reply: Result<seq<PC.Project>, Failure>)
      modifies this
      ensures isLoading == old(isLoading) && showSuccess == old(showSuccess)
      ensures reply.Ok? ==> projects == reply.value
      ensures reply.Ok? ==> showError == old(showError) && errorMessage == old(errorMessage)
      ensures reply.Err? ==> projects == old(projects) && showError
      ensures reply.Err? ==> errorMessage == ProjectsErrorMessage(reply.error)
    {
      match reply
      case Ok(ps) =>
        projects := ps;
      case Err(f) =>
        errorMessage := ProjectsErrorMessage(f);
        showError := true;
    }
  }
}
