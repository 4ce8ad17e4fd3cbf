/** `LoginViewModel`: two text fields and the login state, driven by the
    field setters, `login()` and `resetLoginState()`. The coroutine of
    `login()` is split at its one suspension point: `LoginStart` runs up to
    the use-case call, `LoginFinish` stores what the call returned. */
module LoginVm {
  import opened Wrappers
  import opened Text
  import opened Resources

  /** What a successful sign-in yields: the signed-in account. */
  datatype AuthResult = AuthResult(uid: string)

  /** `email`, `password` and `loginState` (null is None). */
  datatype LoginVm = LoginVm(email: string, password: string, estado: Option<Resource<AuthResult>>)

  /** The arguments `loginUseCase` is invoked with. */
  datatype Credentials = Credentials(email: string, password: string)

  const MsgCamposVacios := "Por favor, completa todos los campos."

  function Init(): (vm: LoginVm)
    ensures vm.email == "" && vm.password == "" && vm.estado.None?
  {
    LoginVm("", "", None)
  }

  function OnEmailChange(vm: LoginVm, e: string): (r: LoginVm)
    ensures r.email == e && r.password == vm.password && r.estado == vm.estado
  {
    vm.(email := e)
  }

  function OnPasswordChange(vm: LoginVm, p: string): (r: LoginVm)
    ensures r.password == p && r.email == vm.email && r.estado == vm.estado
  {
    vm.(password := p)
  }

  /** The view-model after `login()` returns, and the use-case call it started, if any. */
  datatype Started = Started(vm: LoginVm, call: Option<Credentials>)

  /** `login()` up to the use-case call: blank fields give the error state and
      no call; otherwise the state is Loading and the fields go to the use case
      as stored, untrimmed. The fields themselves never change. */
  function LoginStart(vm: LoginVm): (r: Started)
    ensures r.vm.email == vm.email && r.vm.password == vm.password
    ensures r.call.None? <==> IsBlank(vm.email) || IsBlank(vm.password)
    ensures r.call.None? ==> r.vm.estado.Some? && Message(r.vm.estado.value) == Some(MsgCamposVacios) && Data(r.vm.estado.value).None?
    ensures r.call.Some? ==> r.vm.estado == Some(Loading) && r.call.value == Credentials(vm.email, vm.password)
  {
    if IsBlank(vm.email) || IsBlank(vm.password) then Started(vm.(estado := Some(ErrorOf(MsgCamposVacios))), None)
    else Started(vm.(estado := Some(Loading)), Some(Credentials(vm.email, vm.password)))
  }

  /** The rest of the coroutine: the state becomes the use case's result. */
  function LoginFinish(vm: LoginVm, result: Resource<AuthResult>): (r: LoginVm)
    ensures r.estado == Some(result)
    ensures r.email == vm.email && r.password == vm.password
  {
    vm.(estado := Some(result))
  }

  function ResetLoginState(vm: LoginVm): (r: LoginVm)
    ensures r.estado.None? && r.email == vm.email && r.password == vm.password
  {
    vm.(estado := None)
  }

  /** A whole login with filled-in fields: the use case sees the fields as
      typed, and the state ends as exactly what it answered. */
  lemma LoginEndsWithResult(vm: LoginVm, useCase: Credentials -> Resource<AuthResult>)
    requires !IsBlank(vm.email) && !IsBlank(vm.password)
    ensures var s := LoginStart(vm);
      s.call == Some(Credentials(vm.email, vm.password)) &&
      LoginFinish(s.vm, useCase(s.call.value)).estado == Some(useCase(Credentials(vm.email, vm.password)))
  {
  }

  /** A login with a blank field never reaches the use case, whatever the other field holds. */
  lemma BlankFieldNeverCalls(vm: LoginVm, e: string, p: string)
    requires IsBlank(e) || IsBlank(p)
    ensures LoginStart(OnPasswordChange(OnEmailChange(vm, e), p)).call.None?
  {
  }

  /** The e-mail reaches the use case untrimmed: surrounding spaces are kept. */
  lemma EmailNotTrimmed(vm: LoginVm)
    requires vm.email == " ana@x.es " && vm.password == "secreto"
    ensures LoginStart(vm).call == Some(Credentials(" ana@x.es ", "secreto"))
    ensures Trim(vm.email) != vm.email
  {
    assert vm.email[1] == 'a' && !IsWs(vm.email[1]);
    assert vm.password[0] == 's' && !IsWs(vm.password[0]);
    assert IsWs(vm.email[0]);
  }
}
