/** The newer store as a whole: one state per slice, each action addressed to the slice whose
    name prefixes its type. Every slice reducer ignores the actions of the other slices, so an
    action changes its own slice and nothing else. */
module AppStore {
  import opened Common
  import AuthSlice
  import CategorySlice
  import GroupSlice
  import PaymentMethodSlice
  import ExpenseSlice
  import UserSlice
  import SettingsSlice
  import ToastSlice

  datatype AppState = AppState(
    auth: AuthSlice.AuthState,
    category: CategorySlice.CategoryState,
    group: GroupSlice.GroupState,
    paymentMethod: PaymentMethodSlice.PaymentMethodState,
    expense: ExpenseSlice.ExpenseState,
    user: UserSlice.UserState,
    settings: SettingsSlice.SettingsState,
    toast: ToastSlice.ToastState)

  const Initial := AppState(
    AuthSlice.Initial, CategorySlice.Initial, GroupSlice.Initial, PaymentMethodSlice.Initial,
    ExpenseSlice.Initial, UserSlice.Initial, SettingsSlice.Initial, ToastSlice.Initial)

  datatype AppAction =
    | ForAuth(authAction: AuthSlice.AuthAction)
    | ForCategory(categoryAction: CategorySlice.CategoryAction)
    | ForGroup(groupAction: GroupSlice.GroupAction)
    | ForPaymentMethod(paymentMethodAction: PaymentMethodSlice.PaymentMethodAction)
    | ForExpense(expenseAction: ExpenseSlice.ExpenseAction)
    | ForUser(userAction: UserSlice.UserAction)
    | ForSettings(settingsAction: SettingsSlice.SettingsAction)
    | ForToast(toastAction: ToastSlice.ToastAction)

  function Reduce(s: AppState, a: AppAction): AppState {
    match a
    case ForAuth(x) => s.(auth := AuthSlice.Reduce(s.auth, x))
    case ForCategory(x) => s.(category := CategorySlice.Reduce(s.category, x))
    case ForGroup(x) => s.(group := GroupSlice.Reduce(s.group, x))
    case ForPaymentMethod(x) => s.(paymentMethod := PaymentMethodSlice.Reduce(s.paymentMethod, x))
    case ForExpense(x) => s.(expense := ExpenseSlice.Reduce(s.expense, x))
    case ForUser(x) => s.(user := UserSlice.Reduce(s.user, x))
    case ForSettings(x) => s.(settings := SettingsSlice.Reduce(s.settings, x))
    case ForToast(x) => s.(toast := ToastSlice.Reduce(s.toast, x))
  }

  function ReduceAll(s: AppState, actions: seq<AppAction>): AppState {
    Fold(Reduce, s, actions)
  }

  /** No reducer clears another slice: ending the session, by logout or by the API client's
      'Session expired' on a 401 reply, signs the auth slice out and leaves the cached
      categories, groups, payment methods, expenses, profile, settings and toast in place. */
  lemma SessionEndKeepsOtherSlices(s: AppState, reason: string)
    ensures var r := Reduce(s, ForAuth(AuthSlice.LogoutSuccess(reason)));
      AuthSlice.SignedOut(r.auth) && r.auth.logoutReason == Some(reason) &&
      r == s.(auth := r.auth)
  {
  }
}
