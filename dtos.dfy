/** The request bodies the services accept, and the field rules their
    class-validator decorators declare. An optional field is `None` when the
    client sent null or left it out (`@IsOptional()` then skips its rules).
    The library validators `@IsEmail`, `@IsUrl`, `@IsUUID` and
    `@IsDateString` are not modelled: the predicates below accept whatever
    those fields hold. */
module Dtos {
  import opened Common
  import opened Enums
  import opened Rules

  /** The one consequence of `@IsUUID()` and `@IsEmail()` on an optional
      field that the services rely on: a value that is present is not the
      empty string, so it is truthy. */
  predicate NonEmptyIfPresent(o: Option<string>) {
    o.Some? ==> o.value != ""
  }

  // ---- auth.dto.ts ----

  datatype RegisterDto = RegisterDto(email: string, password: string, firstName: string, lastName: string)

  datatype LoginDto = LoginDto(email: string, password: string)

  datatype RefreshTokenDto = RefreshTokenDto(refreshToken: string)

  /** `@IsString() @IsNotEmpty() @MaxLength(50)`, the rule for first and last names. */
  predicate PersonName(s: string) {
    IsNotEmpty(s) && MaxLength(s, 50)
  }

  predicate ValidRegisterDto(d: RegisterDto) {
    StrongPassword(d.password) && PersonName(d.firstName) && PersonName(d.lastName)
  }

  predicate ValidLoginDto(d: LoginDto) {
    IsNotEmpty(d.password)
  }

  predicate ValidRefreshTokenDto(d: RefreshTokenDto) {
    IsNotEmpty(d.refreshToken)
  }

  // ---- create-user.dto.ts and update-user.dto.ts ----

  datatype CreateUserDto = CreateUserDto(
    email: string, password: string, firstName: string, lastName: string, role: Option<string>)

  predicate ValidCreateUserDto(d: CreateUserDto) {
    StrongPassword(d.password) && PersonName(d.firstName) && PersonName(d.lastName)
      && (d.role.Some? ==> ParseRole(d.role.value).Some?)
  }

  datatype UpdateUserDto = UpdateUserDto(firstName: Option<string>, lastName: Option<string>, isActive: Option<bool>)

  // ---- create-contact.dto.ts ----

  datatype CreateContactDto = CreateContactDto(
    firstName: string,
    lastName: string,
    email: string,
    phone: Option<string>,
    title: Option<string>,
    status: Option<string>,
    companyId: Option<Id>,
    notes: Option<string>)

  /** The contact update body: every field of the create body, optional. */
  datatype UpdateContactDto = UpdateContactDto(
    firstName: Option<string>,
    lastName: Option<string>,
    email: Option<string>,
    phone: Option<string>,
    title: Option<string>,
    status: Option<string>,
    companyId: Option<Id>,
    notes: Option<string>)

  /** `@IsOptional() @Matches(/^\+?[\d\s\-()]+$/)`. */
  predicate OptionalPhone(p: Option<string>) {
    p.Some? ==> PhoneMatches(p.value)
  }

  /** `@IsOptional() @MaxLength(n)`. */
  predicate OptionalMaxLength(o: Option<string>, n: nat) {
    o.Some? ==> MaxLength(o.value, n)
  }

  /** The contact's rules; `notes` has none but being a string. */
  predicate ValidCreateContactDto(d: CreateContactDto) {
    PersonName(d.firstName) && PersonName(d.lastName)
      && OptionalPhone(d.phone) && OptionalMaxLength(d.title, 100)
  }

  // ---- create-company.dto.ts ----

  datatype CreateCompanyDto = CreateCompanyDto(
    name: string,
    industry: Option<string>,
    website: Option<string>,
    address: Option<string>,
    phone: Option<string>,
    notes: Option<string>)

  datatype UpdateCompanyDto = UpdateCompanyDto(
    name: Option<string>,
    industry: Option<string>,
    website: Option<string>,
    address: Option<string>,
    phone: Option<string>,
    notes: Option<string>)

  predicate ValidCreateCompanyDto(d: CreateCompanyDto) {
    IsNotEmpty(d.name) && MaxLength(d.name, 200)
      && OptionalMaxLength(d.industry, 100) && OptionalMaxLength(d.address, 500)
      && OptionalPhone(d.phone)
  }

  // ---- create-deal.dto.ts ----

  /** `amount` and `probability` are JSON numbers. */
  datatype CreateDealDto = CreateDealDto(
    title: string,
    amount: real,
    stage: Option<DealStage>,
    probability: Option<real>,
    expectedCloseDate: Option<string>,
    contactId: Option<Id>,
    companyId: Option<Id>,
    notes: Option<string>)

  datatype UpdateDealDto = UpdateDealDto(
    title: Option<string>,
    amount: Option<real>,
    stage: Option<DealStage>,
    probability: Option<real>,
    expectedCloseDate: Option<string>,
    contactId: Option<Id>,
    companyId: Option<Id>,
    notes: Option<string>)

  const MAX_DEAL_AMOUNT: real := 999999999999.99

  /** `@IsInt()`: a number with no fractional part. */
  predicate IsInt(x: real) {
    x.Floor as real == x
  }

  predicate ValidCreateDealDto(d: CreateDealDto) {
    IsNotEmpty(d.title) && MaxLength(d.title, 200)
      && 0.0 <= d.amount <= MAX_DEAL_AMOUNT
      && (d.probability.Some? ==> IsInt(d.probability.value) && 0.0 <= d.probability.value <= 100.0)
  }

  // ---- create-activity.dto.ts and update-activity.dto.ts ----

  /** `kind` is the activity's `type`; `dueDate` is already read as an instant. */
  datatype CreateActivityDto = CreateActivityDto(
    kind: string,
    subject: string,
    description: Option<string>,
    dueDate: Option<Time>,
    contactId: Option<Id>,
    dealId: Option<Id>)

  datatype UpdateActivityDto = UpdateActivityDto(
    kind: Option<string>,
    subject: Option<string>,
    description: Option<string>,
    dueDate: Option<Time>,
    contactId: Option<Id>,
    dealId: Option<Id>,
    completedAt: Option<Time>)

  // ---- what the declared rules accept ----

  /** The registration and user-creation password rules are one rule, and
      it refuses any password with fewer than eight characters apart from
      variation selectors; a password of only selectors is never valid. */
  lemma {:induction false} PasswordRulesAgree(r: RegisterDto, c: CreateUserDto)
    requires r.password == c.password && r.firstName == c.firstName && r.lastName == c.lastName
    requires c.role.None?
    ensures ValidRegisterDto(r) <==> ValidCreateUserDto(c)
    ensures ValidRegisterDto(r) ==> |r.password| >= 8 && JsLength(r.password) >= 8
    ensures ValidRegisterDto(r) ==> exists i :: 0 <= i < |r.password| && !IsVariationSelector(r.password[i])
  {
    JsLengthBounds(r.password);
  }

  /** A name passes exactly when it is non-empty and has at most 50
      characters apart from variation selectors: every name of 1 to 50
      characters without a selector passes, none of 51 or more does, and
      selectors added to a passing name never make it fail. */
  lemma {:induction false} PersonNameBounds(s: string, selectors: string)
    requires forall i :: 0 <= i < |selectors| ==> IsVariationSelector(selectors[i])
    ensures PersonName(s) ==> 1 <= |s|
    ensures (forall i :: 0 <= i < |s| ==> !IsVariationSelector(s[i])) ==> (PersonName(s) <==> 1 <= |s| <= 50)
    ensures PersonName(s) ==> PersonName(s + selectors)
  {
    JsLengthBounds(s);
    JsLengthBounds(selectors);
    JsLengthAppend(s, selectors);
  }

  /** Contacts and companies share one phone rule: a phone that is present
      is refused when it is "" or "+", or holds a letter or a '+' after the
      first position. */
  lemma {:induction false} PhoneRuleRefuses(c: CreateContactDto, k: CreateCompanyDto)
    requires c.phone == k.phone && c.phone.Some?
    requires var p := c.phone.value;
      p == "" || p == "+" || exists i :: 0 < i < |p| && (p[i] == '+' || 'a' <= p[i] <= 'z' || 'A' <= p[i] <= 'Z')
    ensures !ValidCreateContactDto(c) && !ValidCreateCompanyDto(k)
  {
    PhoneShape(c.phone.value);
  }

  /** A deal probability is accepted exactly when it is one of 0, 1, ..., 100:
      a whole number in range passes, anything with a fraction fails. */
  lemma ProbabilityIsAPercentage(d: CreateDealDto, p: real)
    requires d.probability == Some(p)
    ensures IsNotEmpty(d.title) && MaxLength(d.title, 200) && 0.0 <= d.amount <= MAX_DEAL_AMOUNT ==>
              (ValidCreateDealDto(d) <==> p == p.Floor as real && 0 <= p.Floor <= 100)
    ensures p != p.Floor as real ==> !ValidCreateDealDto(d)
  {
    if IsNotEmpty(d.title) && MaxLength(d.title, 200) && 0.0 <= d.amount <= MAX_DEAL_AMOUNT && ValidCreateDealDto(d) {
      assert 0 <= p.Floor <= 100 && p == p.Floor as real;
    }
  }
}
