/** The API-keys page: who may generate a key, the banners and tooltip that say why not, and the
    dialogs around generating and deleting keys. */
module KeysPage {
  import opened Common
  import opened Http
  import opened Forms
  import opened AuthContext

  datatype ApiKey = ApiKey(id: string, name: Option<string>, tier: string, isActive: bool,
                           createdAt: string, lastUsedAt: Option<string>)

  /** `user?.emailVerified ?? false`. */
  predicate IsVerified(user: Option<User>) {
    user.Some? && user.value.emailVerified
  }

  /** No tier, an empty tier, or the free tier. Any other string counts as paid. */
  predicate IsFreeTier(sub: Option<Subscription>) {
    !(sub.Some? && Truthy(sub.value.tier)) || sub.value.tier.value == "free"
  }

  const FreeTierTip: string := "Subscribe to a plan to generate API keys"
  const UnverifiedTip: string := "Verify your email to generate API keys"

  /** Whether "Generate New Key" can be pressed. */
  function GenerateEnabled(keyCount: int, maxKeys: int, verified: bool, free: bool): (b: bool)
    ensures b <==> keyCount < maxKeys && verified && !free
  {
    !(keyCount >= maxKeys || !verified || free)
  }

  /** The tooltip of the button: the missing subscription first, then the missing verification. */
  function Tooltip(verified: bool, free: bool): (t: Option<string>)
    ensures free ==> t == Some(FreeTierTip)
    ensures !free && !verified ==> t == Some(UnverifiedTip)
    ensures t.None? <==> verified && !free
  {
    if free then Some(FreeTierTip) else if !verified then Some(UnverifiedTip) else None
  }

  /** A button disabled for any reason but the key limit carries a tooltip saying why; an
      enabled one carries none. */
  lemma TooltipExplainsDisabled(keyCount: int, maxKeys: int, verified: bool, free: bool)
    ensures GenerateEnabled(keyCount, maxKeys, verified, free) ==> Tooltip(verified, free).None?
    ensures !GenerateEnabled(keyCount, maxKeys, verified, free) && keyCount < maxKeys ==> Tooltip(verified, free).Some?
  {
  }

  predicate SubscriptionBannerShown(free: bool) { free }

  predicate VerifyBannerShown(verified: bool, free: bool) { !verified && !free }

  /** At most one banner is shown, and whenever the button is disabled while keys remain, one is. */
  lemma OneBannerExplains(keyCount: int, maxKeys: int, verified: bool, free: bool)
    ensures !(SubscriptionBannerShown(free) && VerifyBannerShown(verified, free))
    ensures !GenerateEnabled(keyCount, maxKeys, verified, free) && keyCount < maxKeys ==>
      SubscriptionBannerShown(free) || VerifyBannerShown(verified, free)
  {
  }

  /** The key's name in the table, and in the delete dialog. */
  function KeyLabel(k: ApiKey): (s: string)
    ensures Truthy(k.name) ==> s == k.name.value
    ensures !Truthy(k.name) ==> s == "Unnamed"
    ensures s != ""
  {
    OrElse(k.name, "Unnamed")
  }

  function DeleteLabel(k: Option<ApiKey>): (s: string)
    ensures k.Some? && Truthy(k.value.name) ==> s == k.value.name.value
    ensures !(k.Some? && Truthy(k.value.name)) ==> s == "this key"
    ensures s != ""
  {
    if k.Some? then OrElse(k.value.name, "this key") else "this key"
  }

  /** The body of the key list. It is read whether or not the answer was OK. */
  datatype KeysBody = KeysBody(success: bool, apiKeys: seq<ApiKey>, maxKeys: int)

  /** The body of the generate answer: an error, or the new key in full. */
  datatype GenerateBody = GenerateBody(error: Option<string>, key: string)

  datatype ErrorBody = ErrorBody(error: Option<string>)

  const LoadFailed: string := "Failed to load API keys"
  const GenerateFailed: string := "Failed to generate key"
  const DeleteFailed: string := "Failed to delete key"

  class KeysView {
    var keys: seq<ApiKey>
    var maxKeys: int
    var isLoading: bool
    var isGenerating: bool
    var showGenerateModal: bool
    var showNewKeyModal: bool
    var newKeyName: string
    /** The full key, shown once after generating it. */
    var newKey: string
    var showDeleteModal: bool
    var keyToDelete: Option<ApiKey>
    var isDeleting: bool

    constructor()
      ensures keys == [] && maxKeys == 5 && isLoading
      ensures !isGenerating && !showGenerateModal && !showNewKeyModal && newKeyName == "" && newKey == ""
      ensures !showDeleteModal && keyToDelete.None? && !isDeleting
    {
      keys := [];
      maxKeys := 5;
      isLoading := true;
      isGenerating := false;
      showGenerateModal := false;
      showNewKeyModal := false;
      newKeyName := "";
      newKey := "";
      showDeleteModal := false;
      keyToDelete := None;
      isDeleting := false;
    }

    /** The end of `fetchKeys`: a body with `success` replaces the list and the limit. */
    method FetchKeysDone(outcome: Outcome<KeysBody>) returns (toast: Option<Toast>)
      modifies this
      ensures !isLoading
      ensures !outcome.Threw? && outcome.body.success ==>
        keys == outcome.body.apiKeys && maxKeys == outcome.body.maxKeys
      ensures outcome.Threw? || !outcome.body.success ==> keys == old(keys) && maxKeys == old(maxKeys)
      ensures toast == (if outcome.Threw? then Some(ErrorToast(LoadFailed)) else None)
      ensures isGenerating == old(isGenerating) && showGenerateModal == old(showGenerateModal) &&
              showNewKeyModal == old(showNewKeyModal) && newKeyName == old(newKeyName) && newKey == old(newKey) &&
              showDeleteModal == old(showDeleteModal) && keyToDelete == old(keyToDelete) && isDeleting == old(isDeleting)
    {
      toast := None;
      match outcome {
        case Threw(_) =>
          toast := Some(ErrorToast(LoadFailed));
        case _ =>
          if outcome.body.success {
            keys := outcome.body.apiKeys;
            maxKeys := outcome.body.maxKeys;
          }
      }
      isLoading := false;
    }

    /** Pressing "Generate New Key", which does nothing while the button is disabled. */
    method OpenGenerate(user: Option<User>, sub: Option<Subscription>)
      modifies this
      ensures showGenerateModal == (old(showGenerateModal) ||
                                    GenerateEnabled(|keys|, maxKeys, IsVerified(user), IsFreeTier(sub)))
      ensures keys == old(keys) && maxKeys == old(maxKeys) && showNewKeyModal == old(showNewKeyModal) &&
              newKey == old(newKey) && showDeleteModal == old(showDeleteModal) && keyToDelete == old(keyToDelete)
      ensures isLoading == old(isLoading) && isGenerating == old(isGenerating) && isDeleting == old(isDeleting) &&
              newKeyName == old(newKeyName)
    {
      if GenerateEnabled(|keys|, maxKeys, IsVerified(user), IsFreeTier(sub)) {
        showGenerateModal := true;
      }
    }

    /** `generateKey` up to its request: the name sent, when one was typed. */
    method BeginGenerate() returns (name: Option<string>)
      modifies this
      ensures isGenerating
      ensures name == (if newKeyName == "" then None else Some(newKeyName))
      ensures keys == old(keys) && maxKeys == old(maxKeys) && showGenerateModal == old(showGenerateModal) &&
              showNewKeyModal == old(showNewKeyModal) && newKeyName == old(newKeyName) && newKey == old(newKey) &&
              showDeleteModal == old(showDeleteModal) && keyToDelete == old(keyToDelete) &&
              isDeleting == old(isDeleting) && isLoading == old(isLoading)
    {
      isGenerating := true;
      name := if newKeyName == "" then None else Some(newKeyName);
    }

    /** `generateKey` after its request: a new key replaces the generate dialog by the one that
        shows the key, and the list is fetched again. */
    method FinishGenerate(outcome: Outcome<GenerateBody>) returns (toast: Toast, refetch: bool)
      modifies this
      ensures !isGenerating
      ensures refetch <==> outcome.Ok?
      ensures outcome.Ok? ==>
        newKey == outcome.body.key && !showGenerateModal && showNewKeyModal && newKeyName == "" &&
        toast == SuccessToast("API key generated successfully")
      ensures outcome.NotOk? ==> toast == ErrorToast(OrElse(outcome.body.error, GenerateFailed))
      ensures outcome.Threw? ==> toast == ErrorToast(outcome.message)
      ensures !outcome.Ok? ==>
        newKey == old(newKey) && showGenerateModal == old(showGenerateModal) &&
        showNewKeyModal == old(showNewKeyModal) && newKeyName == old(newKeyName)
      ensures keys == old(keys) && maxKeys == old(maxKeys) && showDeleteModal == old(showDeleteModal) &&
              keyToDelete == old(keyToDelete) && isDeleting == old(isDeleting) && isLoading == old(isLoading)
    {
      match outcome {
        case Ok(body) =>
          newKey := body.key;
          showGenerateModal := false;
          showNewKeyModal := true;
          newKeyName := "";
          refetch := true;
          toast := SuccessToast("API key generated successfully");
        case NotOk(body) =>
          refetch := false;
          toast := ErrorToast(OrElse(body.error, GenerateFailed));
        case Threw(message) =>
          refetch := false;
          toast := ErrorToast(message);
      }
      isGenerating := false;
    }

    /** The trash button of a row. */
    method SelectKeyToDelete(k: ApiKey)
      modifies this
      ensures keyToDelete == Some(k) && showDeleteModal
      ensures keys == old(keys) && maxKeys == old(maxKeys) && showGenerateModal == old(showGenerateModal) &&
              showNewKeyModal == old(showNewKeyModal) && newKeyName == old(newKeyName) && newKey == old(newKey) &&
              isDeleting == old(isDeleting) && isGenerating == old(isGenerating) && isLoading == old(isLoading)
    {
      keyToDelete := Some(k);
      showDeleteModal := true;
    }

    /** `deleteKey` up to its request: the id of the key to delete, or nothing at all when no
        key is selected. */
    method BeginDelete() returns (id: Option<string>)
      modifies this
      ensures old(keyToDelete).None? ==> id.None? && unchanged(this)
      ensures old(keyToDelete).Some? ==> id == Some(old(keyToDelete).value.id) && isDeleting
      ensures keys == old(keys) && maxKeys == old(maxKeys) && showGenerateModal == old(showGenerateModal) &&
              showNewKeyModal == old(showNewKeyModal) && newKeyName == old(newKeyName) && newKey == old(newKey) &&
              showDeleteModal == old(showDeleteModal) && keyToDelete == old(keyToDelete) &&
              isGenerating == old(isGenerating) && isLoading == old(isLoading)
    {
      if keyToDelete.None? {
        return None;
      }
      isDeleting := true;
      id := Some(keyToDelete.value.id);
    }

    /** `deleteKey` after its request: a deleted key closes the dialog and the list is fetched
        again; a refusal keeps the dialog open on the same key. */
    method FinishDelete(outcome: Outcome<ErrorBody>) returns (toast: Toast, refetch: bool)
      modifies this
      ensures !isDeleting
      ensures refetch <==> outcome.Ok?
      ensures outcome.Ok? ==> !showDeleteModal && keyToDelete.None? && toast == SuccessToast("API key deleted")
      ensures outcome.NotOk? ==> toast == ErrorToast(OrElse(outcome.body.error, DeleteFailed))
      ensures outcome.Threw? ==> toast == ErrorToast(outcome.message)
      ensures !outcome.Ok? ==> showDeleteModal == old(showDeleteModal) && keyToDelete == old(keyToDelete)
      ensures keys == old(keys) && maxKeys == old(maxKeys) && showGenerateModal == old(showGenerateModal) &&
              showNewKeyModal == old(showNewKeyModal) && newKeyName == old(newKeyName) && newKey == old(newKey) &&
              isGenerating == old(isGenerating) && isLoading == old(isLoading)
    {
      match outcome {
        case Ok(_) =>
          showDeleteModal := false;
          keyToDelete := None;
          refetch := true;
          toast := SuccessToast("API key deleted");
        case NotOk(body) =>
          refetch := false;
          toast := ErrorToast(OrElse(body.error, DeleteFailed));
        case Threw(message) =>
          refetch := false;
          toast := ErrorToast(message);
      }
      isDeleting := false;
    }

    /** "I've saved my key": the dialog closes and the key is forgotten. */
    method ConfirmNewKey()
      modifies this
      ensures !showNewKeyModal && newKey == ""
      ensures keys == old(keys) && maxKeys == old(maxKeys) && showGenerateModal == old(showGenerateModal) &&
              newKeyName == old(newKeyName) && showDeleteModal == old(showDeleteModal) &&
              keyToDelete == old(keyToDelete) && isDeleting == old(isDeleting) &&
              isGenerating == old(isGenerating) && isLoading == old(isLoading)
    {
      showNewKeyModal := false;
      newKey := "";
    }
  }

  /** A free account never opens the generate dialog, whatever its keys and verification. */
  method FreeTierCannotGenerate(user: Option<User>, sub: Option<Subscription>, listing: KeysBody)
    returns (dialogOpen: bool)
    requires IsFreeTier(sub)
    ensures !dialogOpen
  {
    var page := new KeysView();
    var toast := page.FetchKeysDone(Ok(listing));
    page.OpenGenerate(user, sub);
    dialogOpen := page.showGenerateModal;
  }

  /** A generated key is visible until the user confirms, and gone afterwards. */
  method NewKeyShownOnce(body: GenerateBody) returns (shown: string, after: string)
    ensures shown == body.key && after == ""
  {
    var page := new KeysView();
    var name := page.BeginGenerate();
    var toast, refetch := page.FinishGenerate(Ok(body));
    shown := page.newKey;
    page.ConfirmNewKey();
    after := page.newKey;
  }

  /** Pressing delete with no key selected sends nothing. */
  method DeleteWithoutSelection() returns (sent: Option<string>)
    ensures sent.None?
  {
    var page := new KeysView();
    sent := page.BeginDelete();
  }
}
