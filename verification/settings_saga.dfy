/** The settings workers of the newer store (src/store/sagas/settingsSaga.ts). A rejected
    call is reported with the error's own `message`. */
module SettingsSaga {
  import opened Common
  import opened Entities
  import opened SettingsSlice

  /** The settings service functions the workers call, with their arguments. */
  datatype SettingsCall = FetchSettingsCall(userId: string) | SaveSettingsCall(userId: string, settingsData: SettingsData)

  type SettingsEffect = Effect<SettingsCall, SettingsAction>

  datatype SettingsReplies = SettingsReplies(fetch: Outcome<SettingsData, ApiError>, save: Outcome<(), ApiError>)

  /** Fetch asks for the settings of the action's user and never refetches. */
  function FetchSettingsSaga(userId: string, reply: Outcome<SettingsData, ApiError>): (effects: seq<SettingsEffect>)
    ensures Calls(effects) == [FetchSettingsCall(userId)]
    ensures reply.Ok? ==> Puts(effects) == [FetchSettingsSuccess(reply.value)]
    ensures reply.Err? ==> Puts(effects) == [FetchSettingsFailure(reply.error.message)]
  {
    match reply
    case Ok(settings) => CallThen(FetchSettingsCall(userId), [FetchSettingsSuccess(settings)])
    case Err(e) => CallThen(FetchSettingsCall(userId), [FetchSettingsFailure(e.message)])
  }

  /** A successful save puts the settings it submitted (the service's reply carries none),
      then asks for the same user's settings again. */
  function SaveSettingsSaga(userId: string, data: SettingsData, reply: Outcome<(), ApiError>)
    : (effects: seq<SettingsEffect>)
    ensures Calls(effects) == [SaveSettingsCall(userId, data)]
    ensures reply.Ok? ==> Puts(effects) == [SaveSettingsSuccess(data), FetchSettingsRequest(userId)]
    ensures reply.Err? ==> Puts(effects) == [SaveSettingsFailure(reply.error.message)]
  {
    match reply
    case Ok(_) => CallThen(SaveSettingsCall(userId, data), [SaveSettingsSuccess(data), FetchSettingsRequest(userId)])
    case Err(e) => CallThen(SaveSettingsCall(userId, data), [SaveSettingsFailure(e.message)])
  }

  function Handle(a: SettingsAction, replies: SettingsReplies): seq<SettingsEffect> {
    match a
    case FetchSettingsRequest(userId) => FetchSettingsSaga(userId, replies.fetch)
    case SaveSettingsRequest(userId, data) => SaveSettingsSaga(userId, data, replies.save)
    case _ => []
  }

  /** Both workers settle once; the only other put is the refetch after a successful save. */
  lemma WorkerSettlesOnce(a: SettingsAction, replies: SettingsReplies)
    ensures Handle(a, replies) != [] <==> a.IsRequest()
    ensures a.IsRequest() ==>
      var puts := Puts(Handle(a, replies));
      1 <= |puts| <= 2 && !puts[0].IsRequest() &&
      (|puts| == 2 <==> a.SaveSettingsRequest? && replies.save.Ok?) &&
      (|puts| == 2 ==> puts[1] == FetchSettingsRequest(a.userId))
  {
    if a.FetchSettingsRequest? {
      match replies.fetch { case Ok(_) => case Err(_) => }
    } else if a.SaveSettingsRequest? {
      match replies.save { case Ok(_) => case Err(_) => }
    }
  }

  /** After a successful save and the refetch it triggers, the slice holds what the server
      returned for that user, and no error. */
  lemma {:induction false} SaveThenRefetchConverges(
    s: SettingsState, userId: string, data: SettingsData, fetched: SettingsData)
    ensures var afterSave := ReduceAll(s, Puts(SaveSettingsSaga(userId, data, Ok(()))));
      var refetch := Puts(SaveSettingsSaga(userId, data, Ok(())))[1];
      refetch == FetchSettingsRequest(userId) &&
      ReduceAll(afterSave, Puts(Handle(refetch, SettingsReplies(Ok(fetched), Ok(()))))) ==
        SettingsState(Some(fetched), false, None)
  {
    FoldTwo(Reduce, s, SaveSettingsSuccess(data), FetchSettingsRequest(userId));
    var afterSave := ReduceAll(s, Puts(SaveSettingsSaga(userId, data, Ok(()))));
    FoldOne(Reduce, afterSave, FetchSettingsSuccess(fetched));
  }

  /** A failed save keeps the settings the slice had. */
  lemma {:induction false} FailedSaveKeepsSettings(s: SettingsState, userId: string, data: SettingsData, e: ApiError)
    ensures ReduceAll(s, Puts(SaveSettingsSaga(userId, data, Err(e)))) ==
      s.(loading := false, error := Some(e.message))
  {
    FoldOne(Reduce, s, SaveSettingsFailure(e.message));
  }
}
