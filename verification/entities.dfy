/** The records the newer slices hold and the payloads their actions carry, after the
    declaration files under src/types and src/constants/toastTypes.ts. An optional property
    (`name?: string`) is an Option; a `number` is a `real` that is only carried, never computed
    with. */
module Entities {
  import opened Common

  // src/types/category.d.ts

  datatype Category = Category(id: string, name: string)

  datatype CreateCategory = CreateCategory(name: string, authorId: string)

  datatype UpdateCategory = UpdateCategory(name: Option<string>, authorId: Option<string>)

  function CategoryId(c: Category): string { c.id }

  // src/types/paymentMethod.d.ts

  datatype PaymentMethodItem = PaymentMethodItem(
    id: string, name: string, authorId: string, createdAt: string, updatedAt: string)

  datatype CreatePaymentMethod = CreatePaymentMethod(name: string, authorId: string)

  /** The payload of `updatePaymentMethodSuccess`: `name` may be absent. */
  datatype UpdatePaymentMethod = UpdatePaymentMethod(id: string, name: Option<string>, authorId: string)

  /** Partial<PaymentMethodItem>, the data of an update request */
  datatype PaymentMethodPatch = PaymentMethodPatch(
    id: Option<string>, name: Option<string>, authorId: Option<string>,
    createdAt: Option<string>, updatedAt: Option<string>)

  /** `{ ...pm, ...patch }`: id and authorId come from the patch, the name from the patch when
      it has one, the timestamps from `pm`. */
  function MergePaymentMethod(pm: PaymentMethodItem, patch: UpdatePaymentMethod): (r: PaymentMethodItem)
    ensures r.id == patch.id && r.authorId == patch.authorId
    ensures r.name == (if patch.name.Some? then patch.name.value else pm.name)
    ensures r.createdAt == pm.createdAt && r.updatedAt == pm.updatedAt
  {
    PaymentMethodItem(patch.id, patch.name.GetOr(pm.name), patch.authorId, pm.createdAt, pm.updatedAt)
  }

  function PaymentMethodId(pm: PaymentMethodItem): string { pm.id }

  // src/types/group.d.ts

  /** IGroupItemResponse */
  datatype GroupItem = GroupItem(
    id: string, groupName: string, currency: string, userIds: Option<seq<string>>, authorId: string)

  /** IAddGroup */
  datatype AddGroup = AddGroup(
    groupName: string, currency: string, userIds: Option<seq<string>>, authorId: Option<string>)

  /** Partial<IGroupItemResponse>, the data of an update request */
  datatype GroupPatch = GroupPatch(
    id: Option<string>, groupName: Option<string>, currency: Option<string>,
    userIds: Option<seq<string>>, authorId: Option<string>)

  function GroupId(g: GroupItem): string { g.id }

  // src/types/expense.d.ts

  datatype NamedRef = NamedRef(id: string, name: string)

  datatype GroupRef = GroupRef(id: string, groupName: string)

  datatype ExpenseResponseItem = ExpenseResponseItem(
    id: string, category: NamedRef, amount: real, description: string, date: string,
    createdAt: string, updatedAt: string, addedBy: string, paymentMethod: NamedRef, group: GroupRef)

  /** One page of expenses as the server returns it. */
  datatype FetchExpensesResponseData = FetchExpensesResponseData(
    expenses: seq<ExpenseResponseItem>, total: real, currentPage: real, totalPages: real, pageSize: real)

  datatype CreateExpense = CreateExpense(
    amount: real, categoryId: string, paymentMethodId: string, groupId: string,
    description: Option<string>, date: string, authorId: string)

  datatype UpdateExpense = UpdateExpense(
    id: string, amount: Option<real>, categoryId: Option<string>, paymentMethodId: Option<string>,
    groupId: Option<string>, description: Option<string>, date: string, authorId: string)

  datatype UpdateExpensePayload = UpdateExpensePayload(expenseId: string, data: UpdateExpense)

  function ExpenseId(e: ExpenseResponseItem): string { e.id }

  // src/types/auth.d.ts

  /** A user profile: the four required properties, and the optional ones (lastName,
      middleName, phone, dateOfBirth, gender, nationality, address, city, state, country,
      zipCode, securityQuestion, securityAnswer, the profile URLs, clientId, appId,
      profilePicture) as a map from the name of each property present to its value. */
  datatype User = User(id: string, username: string, email: string, firstName: string,
                       optional: map<string, string>)

  /** `{ ...base, ...patch }` on two users: every required property comes from `patch`, an
      optional one from `patch` when it has it and from `base` otherwise. */
  function SpreadUser(base: User, patch: User): (r: User)
    ensures r.id == patch.id && r.username == patch.username
    ensures r.email == patch.email && r.firstName == patch.firstName
    ensures r.optional.Keys == base.optional.Keys + patch.optional.Keys
    ensures forall k :: k in patch.optional ==> r.optional[k] == patch.optional[k]
    ensures forall k :: k in base.optional && k !in patch.optional ==> r.optional[k] == base.optional[k]
  {
    User(patch.id, patch.username, patch.email, patch.firstName, base.optional + patch.optional)
  }

  function UserId(u: User): string { u.id }

  datatype AuthData = AuthData(userProfile: User, token: string)

  datatype LoginRequestPayload = LoginRequestPayload(username: string, password: string)

  datatype RegisterRequestPayload = RegisterRequestPayload(
    firstName: string, lastName: Option<string>, email: string, username: string,
    password: string, country: Option<string>)

  // src/types/user.d.ts

  /** Partial<User>: the properties present, by name. */
  type UserFields = map<string, string>

  datatype UpdateProfilePayload = UpdateProfilePayload(username: string, data: UserFields)

  datatype FetchUsersPayload = FetchUsersPayload(fields: Option<seq<string>>)

  // src/types/settings.d.ts

  datatype SettingsData = SettingsData(
    selectedCategories: seq<string>, selectedPaymentMethods: seq<string>, theme: string)

  // src/constants/toastTypes.ts

  datatype ToastType = SuccessToast | ErrorToast | InfoToast

  datatype ToastPosition = Top | Bottom

  datatype ToastOptions = ToastOptions(message: string, toastType: ToastType, position: Option<ToastPosition>)
}

/** The records of the legacy slices: the Expense and Group interfaces declared in
    src/store/expenseSlice.ts and the User interface of the storage-backed user service. */
module LegacyEntities {
  import opened Common

  datatype Expense = Expense(
    id: string, amount: real, category: string, description: string, date: string,
    paymentMethod: string, group: string)

  datatype Group = Group(id: string, name: string, currency: string, description: Option<string>)

  datatype User = User(
    id: string, name: string, email: string, phone: Option<string>, address: Option<string>,
    city: Option<string>, country: string, username: string, password: Option<string>,
    token: Option<string>, photoUrl: Option<string>, isAdmin: Option<bool>)

  function ExpenseId(e: Expense): string { e.id }

  function GroupId(g: Group): string { g.id }

  function UserId(u: User): string { u.id }
}
