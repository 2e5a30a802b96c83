/** The legacy settings workers (src/store/settingsSagas.ts). The fetch reads the visible
    categories and then the visible payment methods, and puts one success holding both; an
    update writes one map and puts a success without payload. A throw is reported with the
    Error's message or a fixed message. */
module LegacySettingsSagas {
  import opened Common
  import opened LegacySettingsSlice

  /** The SettingsService functions the workers call, with their arguments. */
  datatype SettingsCall =
    | GetVisibleCategoriesCall
    | GetVisiblePaymentMethodsCall
    | SetVisibleCategoriesCall(categories: Visibility)
    | SetVisiblePaymentMethodsCall(paymentMethods: Visibility)

  type SettingsEffect = Effect<SettingsCall, SettingsAction>

  const FetchSettingsFallback := "An unknown error occurred while fetching settings."
  const UpdateCategoriesFallback := "An unknown error occurred while updating visible categories."
  const UpdatePaymentMethodsFallback := "An unknown error occurred while updating visible payment methods."

  /** Two reads in sequence; a throw from the first skips the second. */
  function FetchSettingsSaga(categories: Outcome<Visibility, Thrown>, paymentMethods: Outcome<Visibility, Thrown>)
    : (effects: seq<SettingsEffect>)
    ensures categories.Err? ==> Calls(effects) == [GetVisibleCategoriesCall]
    ensures categories.Ok? ==> Calls(effects) == [GetVisibleCategoriesCall, GetVisiblePaymentMethodsCall]
    ensures categories.Ok? && paymentMethods.Ok? ==>
      Puts(effects) == [FetchSettingsSuccess(categories.value, paymentMethods.value)]
    ensures categories.Err? ==>
      Puts(effects) == [FetchSettingsFailure(ThrownMessageOr(categories.error, FetchSettingsFallback))]
    ensures categories.Ok? && paymentMethods.Err? ==>
      Puts(effects) == [FetchSettingsFailure(ThrownMessageOr(paymentMethods.error, FetchSettingsFallback))]
    ensures effects[|effects| - 1].Put?
  {
    match categories
    case Err(t) => CallThen(GetVisibleCategoriesCall, [FetchSettingsFailure(ThrownMessageOr(t, FetchSettingsFallback))])
    case Ok(cs) =>
      match paymentMethods
      case Err(t) =>
        CallBefore(GetVisibleCategoriesCall,
          CallThen(GetVisiblePaymentMethodsCall, [FetchSettingsFailure(ThrownMessageOr(t, FetchSettingsFallback))]))
      case Ok(pms) =>
        CallBefore(GetVisibleCategoriesCall, CallThen(GetVisiblePaymentMethodsCall, [FetchSettingsSuccess(cs, pms)]))
  }

  function UpdateVisibleCategoriesSaga(categories: Visibility, reply: Outcome<(), Thrown>): (effects: seq<SettingsEffect>)
    ensures Calls(effects) == [SetVisibleCategoriesCall(categories)]
    ensures reply.Ok? ==> Puts(effects) == [UpdateSettingsSuccess]
    ensures reply.Err? ==> Puts(effects) == [UpdateSettingsFailure(ThrownMessageOr(reply.error, UpdateCategoriesFallback))]
  {
    match reply
    case Ok(_) => CallThen(SetVisibleCategoriesCall(categories), [UpdateSettingsSuccess])
    case Err(t) =>
      CallThen(SetVisibleCategoriesCall(categories), [UpdateSettingsFailure(ThrownMessageOr(t, UpdateCategoriesFallback))])
  }

  function UpdateVisiblePaymentMethodsSaga(paymentMethods: Visibility, reply: Outcome<(), Thrown>)
    : (effects: seq<SettingsEffect>)
    ensures Calls(effects) == [SetVisiblePaymentMethodsCall(paymentMethods)]
    ensures reply.Ok? ==> Puts(effects) == [UpdateSettingsSuccess]
    ensures reply.Err? ==>
      Puts(effects) == [UpdateSettingsFailure(ThrownMessageOr(reply.error, UpdatePaymentMethodsFallback))]
  {
    match reply
    case Ok(_) => CallThen(SetVisiblePaymentMethodsCall(paymentMethods), [UpdateSettingsSuccess])
    case Err(t) =>
      CallThen(SetVisiblePaymentMethodsCall(paymentMethods),
               [UpdateSettingsFailure(ThrownMessageOr(t, UpdatePaymentMethodsFallback))])
  }

  /** Each worker puts exactly one action, and it is the last thing it does. */
  lemma WorkersPutOne(m: Visibility, cs: Outcome<Visibility, Thrown>, pms: Outcome<Visibility, Thrown>,
                      reply: Outcome<(), Thrown>)
    ensures |Puts(FetchSettingsSaga(cs, pms))| == 1
    ensures |Puts(UpdateVisibleCategoriesSaga(m, reply))| == 1
    ensures |Puts(UpdateVisiblePaymentMethodsSaga(m, reply))| == 1
    ensures var e := UpdateVisibleCategoriesSaga(m, reply); e[|e| - 1].Put?
    ensures var e := UpdateVisiblePaymentMethodsSaga(m, reply); e[|e| - 1].Put?
  {
  }

  /** A completed fetch stores exactly the two maps the service read. */
  lemma {:induction false} FetchRunStoresBothMaps(s: SettingsState, cs: Visibility, pms: Visibility)
    ensures var r := ReduceAll(Reduce(s, FetchSettings), Puts(FetchSettingsSaga(Ok(cs), Ok(pms))));
      r.visibleCategories == cs && r.visiblePaymentMethods == pms && !r.loading && r.error.None? &&
      r.success == Some(SettingsFetched)
  {
    FoldOne(Reduce, Reduce(s, FetchSettings), FetchSettingsSuccess(cs, pms));
  }

  /** The update action itself replaces the map before the write is attempted, and a failed
      write does not undo it: the slice shows the new visibility together with the error. */
  lemma {:induction false} FailedCategoriesUpdateKeepsNewMap(s: SettingsState, m: Visibility, t: Thrown)
    ensures var r := ReduceAll(Reduce(s, UpdateVisibleCategories(m)), Puts(UpdateVisibleCategoriesSaga(m, Err(t))));
      r.visibleCategories == m && r.visiblePaymentMethods == s.visiblePaymentMethods &&
      r.error == Some(ThrownMessageOr(t, UpdateCategoriesFallback)) && r.success.None?
  {
    FoldOne(Reduce, Reduce(s, UpdateVisibleCategories(m)),
            UpdateSettingsFailure(ThrownMessageOr(t, UpdateCategoriesFallback)));
  }

  /** The same holds for the payment-method visibility. */
  lemma {:induction false} FailedPaymentMethodsUpdateKeepsNewMap(s: SettingsState, m: Visibility, t: Thrown)
    ensures var r := ReduceAll(Reduce(s, UpdateVisiblePaymentMethods(m)), Puts(UpdateVisiblePaymentMethodsSaga(m, Err(t))));
      r.visiblePaymentMethods == m && r.visibleCategories == s.visibleCategories &&
      r.error == Some(ThrownMessageOr(t, UpdatePaymentMethodsFallback)) && r.success.None?
  {
    FoldOne(Reduce, Reduce(s, UpdateVisiblePaymentMethods(m)),
            UpdateSettingsFailure(ThrownMessageOr(t, UpdatePaymentMethodsFallback)));
  }
}
