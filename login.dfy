/**
 * The login and signup page: the referrer code comes from the `ref` query
 * parameter; signup creates the profile and the streak row and pays the
 * referral bonus before signing in; the page also builds the OAuth redirect
 * and requests password-reset emails.
 */
module Login {
  import opened Common
  import opened Backend

  /** `URLSearchParams.get(key)` on the decoded pairs of a query string: the first value given for `key`. */
  function QueryGet(params: seq<(string, string)>, key: string): (r: Option<string>)
    ensures r.None? <==> forall i :: 0 <= i < |params| ==> params[i].0 != key
    ensures r.Some? ==> exists i :: 0 <= i < |params| && params[i] == (key, r.value)
                                    && forall j :: 0 <= j < i ==> params[j].0 != key
  {
    if params == [] then None
    else if params[0].0 == key then Some(params[0].1)
    else
      var r := QueryGet(params[1..], key);
      if r.Some? then
        var i :| 0 <= i < |params[1..]| && params[1..][i] == (key, r.value)
                 && forall j :: 0 <= j < i ==> params[1..][j].0 != key;
        assert params[i + 1] == (key, r.value);
        r
      else r
  }

  /** The points a referrer is credited on signup by this page. */
  const SignupReferralBonus := 100

  const Unexpected := "An unexpected error occurred"
  const EmailRequired := "Enter your email to reset password."

  /** `s.slice(0, 8)`. */
  function Prefix8(s: string): string
  {
    if |s| <= 8 then s else s[..8]
  }

  /** The profile the signup inserts (email and referral count are left to the database). */
  function SignupProfile(uuid: string, referredBy: Option<string>): Profile
  {
    Profile(None, Prefix8(uuid), OrNull(referredBy), None, Some(0))
  }

  /** The OAuth redirect: the rewards page, carrying the referrer code when there is one. */
  function RedirectUrl(origin: string, referredBy: Option<string>): string
  {
    origin + "/rewards" + (if Truthy(referredBy) then "?ref=" + referredBy.value else "")
  }

  /** The redirect always lands on the rewards page and has a query exactly when a code is known, and then carries it. */
  lemma {:induction false} RedirectCarriesCode(origin: string, referredBy: Option<string>)
    ensures var url := RedirectUrl(origin, referredBy);
      && |origin| + 8 <= |url|
      && url[..|origin| + 8] == origin + "/rewards"
      && (Truthy(referredBy) ==> url[|origin| + 8..] == "?ref=" + referredBy.value)
      && (!Truthy(referredBy) ==> |url| == |origin| + 8)
  {
    var url := RedirectUrl(origin, referredBy);
    var base := origin + "/rewards";
    var tail := if Truthy(referredBy) then "?ref=" + referredBy.value else "";
    assert url == base + tail;
    assert url[..|base|] == base;
    assert url[|base|..] == tail;
  }

  /** What `supabase.auth.signUp` gives back. */
  datatype SignUpOutcome = SignUpError(message: string) | NoUser | NewUser(id: UserId)

  class LoginPage {
    const store: Store
    const origin: string
    const referredBy: Option<string>
    var email: string
    var password: string
    var isSignup: bool
    var loading: bool
    var error: Option<string>
    var navigatedTo: Option<string>

    /** The page opened at `origin` with the decoded query pairs `query`; the referrer is its `ref` parameter. */
    constructor (store: Store, origin: string, query: seq<(string, string)>)
      ensures this.store == store && this.origin == origin
      ensures referredBy == QueryGet(query, "ref")
      ensures email == "" && password == "" && !isSignup && !loading && error == None && navigatedTo == None
    {
      this.store, this.origin := store, origin;
      referredBy := QueryGet(query, "ref");
      email, password, isSignup, loading, error, navigatedTo := "", "", false, false, None, None;
    }

    /**
     * Submits the form. Sign-in: the error is shown, or the page moves to the
     * rewards page. Signup: a sign-up error is shown; with a new user the
     * profile is inserted, and a failed insert is shown and stops everything
     * that follows; then the streak row (count 0, no claim) is inserted, the
     * referrer is credited 100 through one `increment_profile_stats` request
     * when a code is known, the user is signed in and the page moves on. The
     * streak insert, the credit and the sign-in are not checked for errors.
     */
    method HandleSubmit(uuid: string, signUp: SignUpOutcome, profileInsert: Outcome,
                        streakInsert: Outcome, statsRpc: Outcome, signIn: Outcome)
      requires |uuid| == 36
      modifies this`error, this`loading, this`navigatedTo, store`profiles, store`streaks, store`calls
      ensures !loading
      ensures !isSignup ==>
        && store.calls == old(store.calls) + [SignInWithPassword(email)]
        && store.profiles == old(store.profiles) && store.streaks == old(store.streaks)
        && (signIn.Fail? ==> error == Some(MessageOr(signIn.message, Unexpected)) && navigatedTo == old(navigatedTo))
        && (signIn.Ok? ==> error == None && navigatedTo == Some("/rewards"))
      ensures isSignup && !signUp.NewUser? ==>
        && store.calls == old(store.calls) + [SignUp(email)]
        && store.profiles == old(store.profiles) && store.streaks == old(store.streaks)
        && (signUp.SignUpError? ==> error == Some(MessageOr(signUp.message, Unexpected)) && navigatedTo == old(navigatedTo))
        && (signUp.NoUser? ==> error == None && navigatedTo == Some("/rewards"))
      ensures isSignup && signUp.NewUser? && (profileInsert.Fail? || signUp.id in old(store.profiles)) ==>
        && store.calls == old(store.calls) + [SignUp(email)]
        && store.profiles == old(store.profiles) && store.streaks == old(store.streaks)
        && error == Some(MessageOr(if profileInsert.Fail? then profileInsert.message else DuplicateKey, Unexpected))
        && navigatedTo == old(navigatedTo)
      ensures isSignup && signUp.NewUser? && profileInsert.Ok? && signUp.id !in old(store.profiles) ==>
        var id := signUp.id;
        var inserted := old(store.profiles)[id := SignupProfile(uuid, referredBy)];
        && |inserted[id].referralCode| == 8
        && store.profiles == (if Truthy(referredBy) && statsRpc.Ok?
                              then BumpByCode(inserted, referredBy.value, 0, SignupReferralBonus)
                              else inserted)
        && store.streaks == (if streakInsert.Ok? && id !in old(store.streaks)
                             then old(store.streaks)[id := StreakRow(0, None)]
                             else old(store.streaks))
        && store.calls == old(store.calls) + [SignUp(email)]
                          + (if Truthy(referredBy) then [IncrementProfileStats(referredBy.value, SignupReferralBonus)] else [])
                          + [SignInWithPassword(email)]
        && error == None && navigatedTo == Some("/rewards")
    {
      error := None;
      loading := true;
      var failure: Option<string>;
      if isSignup {
        failure := SignUpFlow(uuid, signUp, profileInsert, streakInsert, statsRpc);
      } else {
        store.calls := store.calls + [SignInWithPassword(email)];
        failure := if signIn.Fail? then Some(signIn.message) else None;
      }
      if failure.Some? {
        error := Some(MessageOr(failure.value, Unexpected));
      } else {
        navigatedTo := Some("/rewards");
      }
      loading := false;
    }

    /** The signup branch of the form: the requests it makes, and the error that stops it, if any. */
    method SignUpFlow(uuid: string, signUp: SignUpOutcome, profileInsert: Outcome, streakInsert: Outcome, statsRpc: Outcome)
      returns (failure: Option<string>)
      requires |uuid| == 36
      modifies store`profiles, store`streaks, store`calls
      ensures !signUp.NewUser? ==>
        && store.calls == old(store.calls) + [SignUp(email)]
        && store.profiles == old(store.profiles) && store.streaks == old(store.streaks)
        && failure == (if signUp.SignUpError? then Some(signUp.message) else None)
      ensures signUp.NewUser? && (profileInsert.Fail? || signUp.id in old(store.profiles)) ==>
        && store.calls == old(store.calls) + [SignUp(email)]
        && store.profiles == old(store.profiles) && store.streaks == old(store.streaks)
        && failure == Some(if profileInsert.Fail? then profileInsert.message else DuplicateKey)
      ensures signUp.NewUser? && profileInsert.Ok? && signUp.id !in old(store.profiles) ==>
        var id := signUp.id;
        var inserted := old(store.profiles)[id := SignupProfile(uuid, referredBy)];
        && store.profiles == (if Truthy(referredBy) && statsRpc.Ok?
                              then BumpByCode(inserted, referredBy.value, 0, SignupReferralBonus)
                              else inserted)
        && store.streaks == (if streakInsert.Ok? && id !in old(store.streaks)
                             then old(store.streaks)[id := StreakRow(0, None)]
                             else old(store.streaks))
        && store.calls == old(store.calls) + [SignUp(email)]
                          + (if Truthy(referredBy) then [IncrementProfileStats(referredBy.value, SignupReferralBonus)] else [])
                          + [SignInWithPassword(email)]
        && failure == None
    {
      store.calls := store.calls + [SignUp(email)];
      if signUp.SignUpError? {
        return Some(signUp.message);
      }
      if signUp.NoUser? {
        return None;
      }
      failure := InsertSignupRows(signUp.id, uuid, profileInsert, streakInsert, statsRpc);
      if failure.None? {
        store.calls := store.calls + [SignInWithPassword(email)];
      }
    }

    /**
     * The table writes of a signup for the new user `id`: the profile insert
     * (its error is returned and stops the rest), the streak row, and the
     * referral credit when a code is known.
     */
    method InsertSignupRows(id: UserId, uuid: string, profileInsert: Outcome, streakInsert: Outcome, statsRpc: Outcome)
      returns (profileError: Option<string>)
      modifies store`profiles, store`streaks, store`calls
      ensures profileError.Some? <==> profileInsert.Fail? || id in old(store.profiles)
      ensures profileError.Some? ==>
        && profileError == Some(if profileInsert.Fail? then profileInsert.message else DuplicateKey)
        && unchanged(store)
      ensures profileError.None? ==>
        var inserted := old(store.profiles)[id := SignupProfile(uuid, referredBy)];
        && store.profiles == (if Truthy(referredBy) && statsRpc.Ok?
                              then BumpByCode(inserted, referredBy.value, 0, SignupReferralBonus)
                              else inserted)
        && store.streaks == (if streakInsert.Ok? && id !in old(store.streaks)
                             then old(store.streaks)[id := StreakRow(0, None)]
                             else old(store.streaks))
        && store.calls == old(store.calls)
                          + (if Truthy(referredBy) then [IncrementProfileStats(referredBy.value, SignupReferralBonus)] else [])
    {
      if profileInsert.Fail? || id in store.profiles {
        return Some(if profileInsert.Fail? then profileInsert.message else DuplicateKey);
      }
      store.profiles := store.profiles[id := SignupProfile(uuid, referredBy)];
      if streakInsert.Ok? && id !in store.streaks {
        store.streaks := store.streaks[id := StreakRow(0, None)];
      }
      if Truthy(referredBy) {
        store.calls := store.calls + [IncrementProfileStats(referredBy.value, SignupReferralBonus)];
        if statsRpc.Ok? {
          store.profiles := BumpByCode(store.profiles, referredBy.value, 0, SignupReferralBonus);
        }
      }
      return None;
    }

    /** Starts Google sign-in, asking to come back to `RedirectUrl`. */
    method HandleGoogleAuth()
      modifies store`calls
      ensures store.calls == old(store.calls) + [SignInWithOAuth("google", RedirectUrl(origin, referredBy))]
    {
      store.calls := store.calls + [SignInWithOAuth("google", RedirectUrl(origin, referredBy))];
    }

    /**
     * Requests a password-reset email. Without an email an error is shown and
     * nothing is sent; otherwise one reset request is sent and its error, if
     * any, is shown.
     */
    method HandleForgotPassword(reset: Outcome)
      modifies this`error, store`calls
      ensures email == "" ==> error == Some(EmailRequired) && store.calls == old(store.calls)
      ensures email != "" ==>
        && store.calls == old(store.calls) + [ResetPasswordForEmail(email, origin + "/reset-password")]
        && error == (if reset.Fail? then Some(reset.message) else old(error))
    {
      if email == "" {
        error := Some(EmailRequired);
        return;
      }
      store.calls := store.calls + [ResetPasswordForEmail(email, origin + "/reset-password")];
      if reset.Fail? {
        error := Some(reset.message);
      }
    }
  }
}
