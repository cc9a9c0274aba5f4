/**
 * The featured partner offer: the claim form uploads a screenshot under a
 * generated name and inserts a claim row for review.
 */
module FeatureCard {
  import opened Common
  import opened Backend

  const Bucket := "reclaim-screenshots"
  const DefaultPointsToClaim := 25
  const Required := "Email and screenshot are required."
  const SomethingWrong := "Something went wrong"

  /** The chosen file (its contents are not modelled). */
  datatype File = File(name: string)

  /** `name.split('.').pop()`: the text after the last '.', or the whole name when it has none. */
  function Extension(name: string): (r: string)
    ensures |r| <= |name| && r == name[|name| - |r|..]
    ensures '.' !in r
    ensures |r| < |name| ==> name[|name| - |r| - 1] == '.'
  {
    if name == [] || name[|name| - 1] == '.' then []
    else Extension(name[..|name| - 1]) + [name[|name| - 1]]
  }

  /** The stored name `userId_timestamp.ext`. */
  function UploadName(userId: string, stamp: string, file: File): string
  {
    userId + "_" + stamp + "." + Extension(file.name)
  }

  /** Any name ending in '.' followed by dot-free text has that text as its extension. */
  lemma {:induction false} ExtensionAfterDot(prefix: string, ext: string)
    requires '.' !in ext
    ensures Extension(prefix + "." + ext) == ext
  {
    var s := prefix + "." + ext;
    var r := Extension(s);
    assert s[|s| - |ext| - 1] == '.';
    assert s[|s| - |ext|..] == ext;
  }

  /** The stored file keeps the extension of the chosen one. */
  lemma UploadKeepsExtension(userId: string, stamp: string, file: File)
    ensures Extension(UploadName(userId, stamp, file)) == Extension(file.name)
  {
    ExtensionAfterDot(userId + "_" + stamp, Extension(file.name));
  }

  /** The form may be sent: an email, a file and a signed-in user. */
  predicate CanSubmit(email: string, file: Option<File>, userId: Option<UserId>)
  {
    email != "" && file.Some? && Truthy(userId)
  }

  class FeaturedCard {
    const store: Store
    const title: string
    const pointsToClaim: int
    const userId: Option<UserId>
    var isOpen: bool
    var email: string
    var file: Option<File>
    var loading: bool
    var error: string

    /** A card for the offer `title`; `pointsToClaim` defaults to 25. */
    constructor (store: Store, title: string, userId: Option<UserId>, pointsToClaim: int := DefaultPointsToClaim)
      ensures this.store == store && this.title == title && this.userId == userId && this.pointsToClaim == pointsToClaim
      ensures !isOpen && email == "" && file == None && !loading && error == ""
    {
      this.store, this.title, this.userId, this.pointsToClaim := store, title, userId, pointsToClaim;
      isOpen, email, file, loading, error := false, "", None, false, "";
    }

    /**
     * Sends the claim. An incomplete form shows an error and sends nothing.
     * Otherwise the screenshot is uploaded under `UploadName` (`stamp` is the
     * current time in milliseconds, as text); a failed upload shows its error
     * and inserts nothing; then the claim row is inserted, and on success the
     * form closes and clears. Loading ends false.
     */
    method Submit(stamp: string, upload: Outcome, insert: Outcome)
      modifies this`isOpen, this`email, this`file, this`loading, this`error, store`calls, store`claims
      ensures !CanSubmit(old(email), old(file), userId) ==>
        && error == Required
        && isOpen == old(isOpen) && email == old(email) && file == old(file) && loading == old(loading)
        && unchanged(store)
      ensures CanSubmit(old(email), old(file), userId) ==>
        var name := UploadName(userId.value, stamp, old(file).value);
        var row := RewardClaim(userId.value, old(email), name, pointsToClaim, title);
        var sent := upload.Ok? && insert.Ok?;
        && !loading
        && store.calls == old(store.calls) + [Upload(Bucket, name)]
        && store.claims == old(store.claims) + (if sent then [row] else [])
        && (upload.Fail? ==> error == MessageOr(upload.message, SomethingWrong))
        && (upload.Ok? && insert.Fail? ==> error == MessageOr(insert.message, SomethingWrong))
        && (sent ==> error == "" && !isOpen && email == "" && file == None)
        && (!sent ==> isOpen == old(isOpen) && email == old(email) && file == old(file))
    {
      error := "";
      if !CanSubmit(email, file, userId) {
        error := Required;
        return;
      }
      loading := true;
      var name := UploadName(userId.value, stamp, file.value);
      var failure := Send(name, RewardClaim(userId.value, email, name, pointsToClaim, title), upload, insert);
      if failure.Some? {
        error := failure.value;
      } else {
        isOpen := false;
        email := "";
        file := None;
      }
      loading := false;
    }

    /**
     * Uploads the screenshot as `name`, then inserts `row` (whose path is the
     * uploaded one); the first failure is returned and stops the rest.
     */
    method Send(name: string, row: RewardClaim, upload: Outcome, insert: Outcome) returns (failure: Option<string>)
      modifies store`calls, store`claims
      ensures store.calls == old(store.calls) + [Upload(Bucket, name)]
      ensures failure == (if upload.Fail? then Some(MessageOr(upload.message, SomethingWrong))
                          else if insert.Fail? then Some(MessageOr(insert.message, SomethingWrong))
                          else None)
      ensures store.claims == old(store.claims) + (if failure.None? then [row] else [])
    {
      store.calls := store.calls + [Upload(Bucket, name)];
      if upload.Fail? {
        return Some(MessageOr(upload.message, SomethingWrong));
      }
      if insert.Fail? {
        return Some(MessageOr(insert.message, SomethingWrong));
      }
      store.claims := store.claims + [row];
      return None;
    }
  }
}
