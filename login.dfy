/** The `login` command (knbackup/src/command/login.rs): merge the arguments
    with the saved profile, log in once by refresh token or by password, and
    save the new profile when the login and the profile lookup both succeed.
    The login-mode choice and the single token exchange are shared with the
    `download` command, which repeats the same code. */
module LoginCommand {
  import opened Wrappers
  import opened Config
  import opened Options
  import opened Auth
  import opened Records
  import ErrorTypes
  import Fs

  /** `LoginArgs`. */
  class LoginArgs {
    var clientId: Option<string>
    var userId: Option<string>
    var userPass: Option<string>
    var refreshToken: Option<string>
    var configPath: string

    constructor (clientId: Option<string>, userId: Option<string>, userPass: Option<string>,
                 refreshToken: Option<string>, configPath: string)
      ensures this.clientId == clientId && this.userId == userId && this.userPass == userPass
      ensures this.refreshToken == refreshToken && this.configPath == configPath
    {
      this.clientId := clientId;
      this.userId := userId;
      this.userPass := userPass;
      this.refreshToken := refreshToken;
      this.configPath := configPath;
    }

    /** `update_profile`: the refresh token and the user id are taken from
        the profile only where the user gave none; nothing else changes. */
    method UpdateProfile(profile: Profile)
      modifies this
      ensures refreshToken == Fill(old(refreshToken), profile.refreshToken)
      ensures userId == Fill(old(userId), profile.userId)
      ensures clientId == old(clientId) && userPass == old(userPass) && configPath == old(configPath)
    {
      if refreshToken.None? && profile.refreshToken.Some? {
        refreshToken := profile.refreshToken;
      }
      if userId.None? && profile.userId.Some? {
        userId := profile.userId;
      }
    }
  }

  /** Which login the commands attempt. */
  datatype LoginMode =
    | RefreshLogin(refreshToken: string)
    | PasswordLogin(userId: string, password: string)
    | NoLogin

  /** A refresh token wins; otherwise a password login needs both the user
      id and the password; otherwise there is no login. */
  function SelectLoginMode(refreshToken: Option<string>, userId: Option<string>, userPass: Option<string>): LoginMode {
    if refreshToken.Some? then RefreshLogin(refreshToken.value)
    else if userId.Some? && userPass.Some? then PasswordLogin(userId.value, userPass.value)
    else NoLogin
  }

  /** The mode is determined by which arguments are present: a refresh token
      always means a refresh login with that token, a password login happens
      exactly when there is no refresh token but both the user id and the
      password, and otherwise nothing is attempted. */
  lemma LoginModeRules(refreshToken: Option<string>, userId: Option<string>, userPass: Option<string>)
    ensures var m := SelectLoginMode(refreshToken, userId, userPass);
            && (m.RefreshLogin? <==> refreshToken.Some?)
            && (m.RefreshLogin? ==> m.refreshToken == refreshToken.value)
            && (m.PasswordLogin? <==> refreshToken.None? && userId.Some? && userPass.Some?)
            && (m.PasswordLogin? ==> m.userId == userId.value && m.password == userPass.value)
            && (m.NoLogin? <==> refreshToken.None? && (userId.None? || userPass.None?))
  {
  }

  /** The exchange ends in a token. */
  predicate ExchangeSucceeds(exchange: Exchange) {
    exchange.Replied? && IsSuccess(exchange.status) && exchange.body.Some?
  }

  /** The `auth_result` block of both commands: at most one token exchange,
      with the form of the chosen mode; a failed refresh login is not
      followed by a password login. */
  method Authenticate(sdk: KidsnoteAuthSdk, mode: LoginMode, exchange: Exchange)
    returns (request: Option<TokenRequest>, authResult: Option<OAuthTokenResponse>)
    modifies sdk.config
    ensures sdk.config.host == old(sdk.config.host) && sdk.config.clientId == old(sdk.config.clientId)
    ensures mode.NoLogin? ==> request.None? && authResult.None? && sdk.config.auth == old(sdk.config.auth)
    ensures !mode.NoLogin? ==> (request.Some? <==> !exchange.EncodeFailed?)
    ensures mode.RefreshLogin? && request.Some? ==> request.value.form == RefreshForm(mode.refreshToken)
    ensures mode.PasswordLogin? && request.Some? ==> request.value.form == PasswordForm(mode.userId, mode.password)
    ensures authResult.Some? <==> !mode.NoLogin? && ExchangeSucceeds(exchange)
    ensures authResult.Some? ==> authResult.value == exchange.body.value
                                 && sdk.config.auth == Some(SessionOf(authResult.value))
  {
    match mode
    case RefreshLogin(token) =>
      var r;
      request, r := sdk.RefreshToken(token, exchange);
      authResult := if r.Success? then Some(r.value) else None;
    case PasswordLogin(user, pass) =>
      var r;
      request, r := sdk.Login(user, pass, exchange);
      authResult := if r.Success? then Some(r.value) else None;
    case NoLogin =>
      request, authResult := None, None;
  }

  /** The refresh token and user id the command ends up with. */
  function MergedRefreshToken(arg: Option<string>, loaded: Option<Profile>): Option<string> {
    if loaded.Some? then Fill(arg, loaded.value.refreshToken) else arg
  }

  function MergedUserId(arg: Option<string>, loaded: Option<Profile>): Option<string> {
    if loaded.Some? then Fill(arg, loaded.value.userId) else arg
  }

  /** What a run reports besides its effect on the config files. */
  datatype LoginRun = LoginRun(
    preset: Option<string>,        // the refresh token stored in the SDK before logging in
    mode: LoginMode,
    request: Option<TokenRequest>,
    saved: bool,                   // the profile was set and `save` was called
    invalidArgs: bool)             // "[login] Error. Invalid args" was printed

  /** The start of `run`: a copy of the arguments, with the refresh token
      and the user id the saved default profile supplies where they are
      missing. */
  method MergeArgs(args: LoginArgs, home: Option<string>, store: Config.ConfigStore)
    returns (a: LoginArgs, config: KnBackupConfig)
    ensures fresh(a) && fresh(config)
    ensures var loaded := LoadDefault(args.configPath, home, store.files);
            && a.refreshToken == MergedRefreshToken(args.refreshToken, loaded)
            && a.userId == MergedUserId(args.userId, loaded)
    ensures a.clientId == args.clientId && a.userPass == args.userPass && a.configPath == args.configPath
  {
    a := new LoginArgs(args.clientId, args.userId, args.userPass, args.refreshToken, args.configPath);
    config := new KnBackupConfig.FromFile(a.configPath, home, store.files);
    if config.default.Some? {
      a.UpdateProfile(config.default.value);
    }
  }

  /** `run_async`: log in with the merged arguments; after a successful
      profile lookup (`myInfo`), make the new profile the default and save it. */
  method RunAsync(a: LoginArgs, config: KnBackupConfig, sdk: KidsnoteAuthSdk, home: Option<string>,
                  store: Config.ConfigStore, exchange: Exchange,
                  myInfo: Result<MeInfo, ErrorTypes.AuthError>, saveFaults: Fs.IoFaults)
    returns (mode: LoginMode, request: Option<TokenRequest>, saved: bool, invalidArgs: bool)
    modifies config, sdk.config, store
    ensures mode == SelectLoginMode(a.refreshToken, a.userId, a.userPass)
    ensures mode.NoLogin? ==> request.None?
    ensures mode.RefreshLogin? && request.Some? ==> request.value.form == RefreshForm(mode.refreshToken)
    ensures mode.PasswordLogin? && request.Some? ==> request.value.form == PasswordForm(mode.userId, mode.password)
    ensures invalidArgs <==> mode.NoLogin? || !ExchangeSucceeds(exchange)
    ensures saved <==> !invalidArgs && myInfo.Success?
    ensures saved ==>
              store.files == Saved(old(store.files), ResolvePath(a.configPath, home),
                                   Some(Profile(Some(myInfo.value.username), Some(exchange.body.value.refreshToken))),
                                   saveFaults)
    ensures !saved ==> store.files == old(store.files)
  {
    mode := SelectLoginMode(a.refreshToken, a.userId, a.userPass);
    var authResult;
    request, authResult := Authenticate(sdk, mode, exchange);
    saved, invalidArgs := false, false;
    if authResult.Some? {
      if myInfo.Success? {
        config.SetDefault(myInfo.value.username, authResult.value.refreshToken);
        config.Save(a.configPath, home, store, saveFaults);
        saved := true;
      }
    } else {
      invalidArgs := true;
    }
  }

  /** `LoginCommand::run`: merge the arguments with the saved profile, set
      up the SDK, and go on with `run_async`. The config files are in
      `store`. */
  method Run(args: LoginArgs, home: Option<string>, store: Config.ConfigStore, exchange: Exchange,
             myInfo: Result<MeInfo, ErrorTypes.AuthError>, saveFaults: Fs.IoFaults)
    returns (run: LoginRun)
    modifies store
    ensures var loaded := LoadDefault(args.configPath, home, old(store.files));
            var rt := MergedRefreshToken(args.refreshToken, loaded);
            && run.preset == rt
            && run.mode == SelectLoginMode(rt, MergedUserId(args.userId, loaded), args.userPass)
    ensures run.mode.NoLogin? ==> run.request.None?
    ensures run.mode.RefreshLogin? && run.request.Some? ==> run.request.value.form == RefreshForm(run.mode.refreshToken)
    ensures run.mode.PasswordLogin? && run.request.Some? ==>
              run.request.value.form == PasswordForm(run.mode.userId, run.mode.password)
    ensures run.invalidArgs <==> run.mode.NoLogin? || !ExchangeSucceeds(exchange)
    ensures run.saved <==> !run.invalidArgs && myInfo.Success?
    ensures run.saved ==>
              store.files == Saved(old(store.files), ResolvePath(args.configPath, home),
                                   Some(Profile(Some(myInfo.value.username), Some(exchange.body.value.refreshToken))),
                                   saveFaults)
    ensures !run.saved ==> store.files == old(store.files)
  {
    var a, config := MergeArgs(args, home, store);
    var options := new KidsnoteOptions(a.clientId);
    var sdk := new KidsnoteAuthSdk(options);
    var preset := a.refreshToken;
    var mode, request, saved, invalidArgs :=
      RunAsync(a, config, sdk, home, store, exchange, myInfo, saveFaults);
    run := LoginRun(preset, mode, request, saved, invalidArgs);
  }
}
