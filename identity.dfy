/**
 * Identity: the external-login flow of the identity service, decided from the
 * outcomes of the sign-in and user managers, and the display name of an
 * application-user DTO.
 */
module Identity {
  import opened Wrappers
  import opened Text

  datatype AuthenticationResultStatus = Success | NewAccountCreated | Failure

  /** The result object the flow returns; `errors` defaults to empty. */
  datatype AuthenticationResult = AuthenticationResult(status: AuthenticationResultStatus, errors: seq<string>)

  /** What `UserManager.CreateAsync` reports: success, or the descriptions of
      the errors it found, in order. */
  datatype IdentityResult = Succeeded | Failed(errorDescriptions: seq<string>)

  /** The fields of the new `ApplicationUser` that the flow sets. */
  datatype ApplicationUser = ApplicationUser(userName: Option<string>, email: Option<string>)

  /** A call the flow makes on the user or sign-in manager after the first
      sign-in attempt. */
  datatype Call = CreateUser(user: ApplicationUser) | AddLogin(user: ApplicationUser) | SignIn(user: ApplicationUser)

  /** The result returned, with the calls made on the way, in order. */
  datatype LoginOutcome = LoginOutcome(result: AuthenticationResult, calls: seq<Call>)

  const NoEmailError: string := "Error: No email returned from external provider."
  const ErrorPrefix: string := "Error: "

  /** `createResult.Errors.Select(e => "Error: " + e.Description)`. */
  function ErrorMessages(descriptions: seq<string>): (messages: seq<string>)
    ensures |messages| == |descriptions|
    ensures forall i :: 0 <= i < |descriptions| ==> messages[i] == ErrorPrefix + descriptions[i]
  {
    if descriptions == [] then []
    else [ErrorPrefix + descriptions[0]] + ErrorMessages(descriptions[1..])
  }

  /** `CreateAndSignInNewAccount`: `email` is the provider's email claim. */
  function CreateAndSignInNewAccount(email: Option<string>, createResult: IdentityResult): (o: LoginOutcome)
    ensures IsNullOrEmpty(email) ==> o == LoginOutcome(AuthenticationResult(AuthenticationResultStatus.Failure, [NoEmailError]), [])
    ensures !IsNullOrEmpty(email) ==> |o.calls| >= 1 && o.calls[0] == CreateUser(ApplicationUser(email, email))
    ensures !IsNullOrEmpty(email) && createResult.Succeeded? ==>
      o.result == AuthenticationResult(AuthenticationResultStatus.NewAccountCreated, []) &&
      o.calls == [CreateUser(ApplicationUser(email, email)), AddLogin(ApplicationUser(email, email)), SignIn(ApplicationUser(email, email))]
    ensures !IsNullOrEmpty(email) && createResult.Failed? ==>
      o.result.status == AuthenticationResultStatus.Failure && o.calls == [CreateUser(ApplicationUser(email, email))] &&
      |o.result.errors| == |createResult.errorDescriptions| &&
      forall i :: 0 <= i < |o.result.errors| ==> o.result.errors[i] == ErrorPrefix + createResult.errorDescriptions[i]
  {
    if IsNullOrEmpty(email) then
      LoginOutcome(AuthenticationResult(AuthenticationResultStatus.Failure, [NoEmailError]), [])
    else
      var user := ApplicationUser(email, email);
      match createResult
      case Succeeded =>
        LoginOutcome(AuthenticationResult(AuthenticationResultStatus.NewAccountCreated, []), [CreateUser(user), AddLogin(user), SignIn(user)])
      case Failed(descriptions) =>
        LoginOutcome(AuthenticationResult(AuthenticationResultStatus.Failure, ErrorMessages(descriptions)), [CreateUser(user)])
  }

  /** `ProcessExternalLoginAsync`: `signInSucceeded` is the outcome of signing
      in with an account already linked to the provider. */
  function ProcessExternalLogin(signInSucceeded: bool, email: Option<string>, createResult: IdentityResult): (o: LoginOutcome)
    ensures o.result.status == AuthenticationResultStatus.Success <==> signInSucceeded
    ensures o.result.status == AuthenticationResultStatus.NewAccountCreated <==> !signInSucceeded && !IsNullOrEmpty(email) && createResult.Succeeded?
    ensures o.result.status == AuthenticationResultStatus.Failure <==> !signInSucceeded && (IsNullOrEmpty(email) || createResult.Failed?)
    ensures o.result.status != AuthenticationResultStatus.Failure ==> o.result.errors == []
    ensures o.result.status == AuthenticationResultStatus.Failure ==> |o.result.errors| >= 1 || (createResult.Failed? && createResult.errorDescriptions == [])
    ensures forall c :: c in o.calls ==> c.user == ApplicationUser(email, email)
    ensures (exists c :: c in o.calls && c.CreateUser?) <==> !signInSucceeded && !IsNullOrEmpty(email)
    ensures (exists c :: c in o.calls && (c.AddLogin? || c.SignIn?)) <==> o.result.status == AuthenticationResultStatus.NewAccountCreated
  {
    if signInSucceeded then LoginOutcome(AuthenticationResult(AuthenticationResultStatus.Success, []), [])
    else CreateAndSignInNewAccount(email, createResult)
  }

  /** The four cases of the service's tests. */
  lemma ServiceTestCases()
    ensures ProcessExternalLogin(true, Some("test@test.com"), Succeeded).result.status == AuthenticationResultStatus.Success
    ensures ProcessExternalLogin(false, Some("newuser@test.com"), Succeeded).result.status == AuthenticationResultStatus.NewAccountCreated
    ensures ProcessExternalLogin(false, None, Failed([])).result.status == AuthenticationResultStatus.Failure
    ensures ProcessExternalLogin(false, Some("newuser2@test.com"), Failed(["Test Error"])).result
      == AuthenticationResult(AuthenticationResultStatus.Failure, ["Error: Test Error"])
  {
    assert ["Test Error"][1..] == [];
    assert ErrorPrefix + "Test Error" == "Error: Test Error";
  }

  /** The user DTO: key, user name and the two optional names. */
  datatype ApplicationUserDto = ApplicationUserDto(id: string, userName: Option<string>, firstName: Option<string>, lastName: Option<string>)

  /** The `FullName` getter: "Last, First" from the names that hold text,
      copied as they are, or the user name when neither does. */
  method FullName(user: ApplicationUserDto) returns (fullName: Option<string>)
    ensures HasText(user.lastName) && HasText(user.firstName) ==>
      fullName == Some(user.lastName.value + ", " + user.firstName.value)
    ensures HasText(user.lastName) && !HasText(user.firstName) ==> fullName == user.lastName
    ensures !HasText(user.lastName) && HasText(user.firstName) ==> fullName == user.firstName
    ensures !HasText(user.lastName) && !HasText(user.firstName) ==> fullName == user.userName
  {
    var parts: seq<string> := [];
    if HasText(user.lastName) {
      parts := parts + [user.lastName.value];
    }
    if HasText(user.firstName) {
      parts := parts + [user.firstName.value];
    }
    if |parts| == 2 {
      JoinPair(", ", parts[0], parts[1]);
      assert parts == [parts[0], parts[1]];
    }
    fullName := if |parts| != 0 then Some(Join(", ", parts)) else user.userName;
  }

  /** The four cases of the DTO's tests, with user name "jdoe". */
  method FullNameTestCases() returns (both: Option<string>, lastOnly: Option<string>, firstOnly: Option<string>, neither: Option<string>)
    ensures both == Some("Doe, John") && lastOnly == Some("Doe") && firstOnly == Some("John") && neither == Some("jdoe")
  {
    assert HasText(Some("John")) by { assert !IsWhiteSpace("John"[0]); }
    assert HasText(Some("Doe")) by { assert !IsWhiteSpace("Doe"[0]); }
    both := FullName(ApplicationUserDto("1", Some("jdoe"), Some("John"), Some("Doe")));
    lastOnly := FullName(ApplicationUserDto("1", Some("jdoe"), None, Some("Doe")));
    firstOnly := FullName(ApplicationUserDto("1", Some("jdoe"), Some("John"), None));
    neither := FullName(ApplicationUserDto("1", Some("jdoe"), None, None));
    assert "Doe" + ", " + "John" == "Doe, John";
  }
}
