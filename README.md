# OpenMRS UI test framework: cleanup ledger and login flow

This project models the logic inside the browser-test harness of the
OpenMRS UI test framework. The parts modelled are:

- **The cleanup ledger of `TestBase`.** This is a process-wide DbUnit
  `QueryDataSet`, created lazily. The delete helpers append
  (table, select) entries to it. A teardown hands it to the database
  tester with an operation and then drops it.
- **The query builders.** `simpleQuery`, `formatQuery` (a one-argument
  `String.format`) and `addSimpleQuery`.
- **The fixed obligations** that `deleteUser` and `deleteRole` record.
- **The fixture helpers.** `findOrCreateRole`, `patientIdFromUrl`,
  `waitForPatientDeletion`, and the XML data set in `createUser` that
  patches a provider's role.
- **The login page object.** Its credential presets, the exact JavaScript
  call it runs to post the login form, and the three browser steps of a
  login.

How the model stands in for the outside world:

- The database tester is a record of the teardowns handed to it.
- The browser is a record of the steps asked of it.
- The remote role lookup is a map from role name to uuid.

The modules follow the source:

- `JavaText` holds the Java library string operations the code relies on.
- `Templates` holds strings built as literal pieces with values between
  them, and reads the values back.
- `Queries` holds the select texts and the specification of a run of
  `addTable` calls.
- `Ledger` holds `QueryDataSet` and TestBase's static ledger state.
- `Fixtures` holds the role helpers and the provider patch.
- `Patients` holds the patient helpers.
- `Login` holds `LoginPage`.

How the code is modelled:

- `addTable` refuses a table name it already holds; DbUnit throws
  `AmbiguousTableNameException` there. The model returns that refusal as
  a `Fail` value, and recording stops at the first failure, as the
  exception would stop it.
- `AddTables` specifies a whole run of additions. `deleteUser` is proved
  against it on any prior ledger contents.
- `String.format` with a single argument is modelled for the `%s` and
  `%%` conversions. Any other `%` sequence is an
  `UnknownFormatConversion` error. A second `%s` is a
  `MissingFormatArgument` error.

## Model

| member | source | states |
|---|---|---|
| Ledger.CleanupLedger.constructor | src/main/java/org/openmrs/uitestframework/test/TestBase.java:106-108 | The delete and check data sets start absent and nothing has been torn down |
| Ledger.CleanupLedger.GetDeleteDataSet | src/main/java/org/openmrs/uitestframework/test/TestBase.java:244-249 | A new empty data set is created only when none exists; otherwise the existing one is returned, so additions accumulate in one data set; nothing else changes |
| Ledger.CleanupLedger.GetCheckDataSet | src/main/java/org/openmrs/uitestframework/test/TestBase.java:251-256 | The same lazy creation for `checkDataSet`, leaving the delete ledger and the store alone |
| Ledger.CleanupLedger.DbUnitTearDownStatic | src/main/java/org/openmrs/uitestframework/test/TestBase.java:226-235 | Without a ledger the store is untouched; otherwise the store receives exactly the ledger's entries with the given operation; the ledger is absent afterwards either way |
| Ledger.CleanupLedger.DbUnitTearDown | src/main/java/org/openmrs/uitestframework/test/TestBase.java:222-224 | The argument-less teardown is the teardown with DELETE |
| Ledger.CleanupLedger.TearDownTwice | src/main/java/org/openmrs/uitestframework/test/TestBase.java:226-235 | A second teardown with nothing recorded in between adds nothing to the store |
| Ledger.QueryDataSet.AddTable | src/main/java/org/openmrs/uitestframework/test/TestBase.java:343 | A table name already held is refused with AmbiguousTableName and changes nothing; a new one is appended with its query |
| Ledger.AddSimpleQuery | src/main/java/org/openmrs/uitestframework/test/TestBase.java:340-344 | The select of simpleQuery formatted with the id is appended under the table name; a format error or a table already held leaves the data set unchanged and is reported |
| Queries.SimpleSelectText | src/main/java/org/openmrs/uitestframework/test/TestBase.java:346-352 | For table and column names without '%', the formatted query is exactly "select * from T where C = id", for any id |
| Queries.PhoneticsSelectText | src/main/java/org/openmrs/uitestframework/test/TestBase.java:317 | The name_phonetics template formats to the person_name subquery on the person id |
| Queries.PersonSelectsText | src/main/java/org/openmrs/uitestframework/test/TestBase.java:313-318 | Each person-keyed select of deleteUser formats to its keyed select on person_id |
| Queries.AccountSelectsText | src/main/java/org/openmrs/uitestframework/test/TestBase.java:319-321 | Each account select of deleteUser formats to its keyed select on user_id |
| Queries.UserObligationsDistinct | src/main/java/org/openmrs/uitestframework/test/TestBase.java:313-321 | deleteUser records nine entries whose table names are pairwise different |
| Queries.AddTablesShape | src/main/java/org/openmrs/uitestframework/test/TestBase.java:343 | A run of additions appends a prefix of its entries in order: all of them when it completes, and otherwise only those before the first table already held, which it names |
| Queries.AddTablesDistinct | src/main/java/org/openmrs/uitestframework/test/TestBase.java:343 | A run of additions never records one table name twice |
| Queries.AddTablesPrefix | src/main/java/org/openmrs/uitestframework/test/TestBase.java:343 | Both of the above for one run on a ledger with distinct names |
| Queries.AddTablesAppend | src/main/java/org/openmrs/uitestframework/test/TestBase.java:313-321 | A run over a + b is the run over a, continued over b only when it completed |
| Queries.AddTablesDisjoint | src/main/java/org/openmrs/uitestframework/test/TestBase.java:343 | Entries with distinct names, none already held, are all appended |
| Queries.UserObligationsAdded | src/main/java/org/openmrs/uitestframework/test/TestBase.java:308-323 | On a ledger holding none of deleteUser's tables (an empty one in particular), all nine entries are appended after what it holds |
| Ledger.AddPersonTables | src/main/java/org/openmrs/uitestframework/test/TestBase.java:313-318 | The six person additions (person, provider, person_name, person_address, name_phonetics, person_attribute) leave exactly what running them in order yields, stopping at the first table already held |
| Ledger.AddAccountTables | src/main/java/org/openmrs/uitestframework/test/TestBase.java:319-321 | The three account additions (users, user_role, user_property) leave exactly what running them in order yields |
| Ledger.CleanupLedger.DeleteUser | src/main/java/org/openmrs/uitestframework/test/TestBase.java:308-323 | When all nine entries go in, the store receives the prior entries followed by the nine, in order, with DELETE, and the ledger is absent; when a table is already held, the failure names it, no teardown happens and the ledger keeps the entries recorded before it |
| Ledger.CleanupLedger.DeleteRole | src/main/java/org/openmrs/uitestframework/test/TestBase.java:331-338 | A role not created by the framework leaves the ledger and the store untouched; a created one is recorded as the role select on its double-quoted uuid and torn down with DELETE |
| Fixtures.FindOrCreateRole | src/main/java/org/openmrs/uitestframework/test/TestBase.java:465-476 | An unknown role is created and marked created, with the uuid the server assigns; a known one takes the looked-up uuid and is marked not created; the name is the argument, and the role exists afterwards with the returned uuid |
| Fixtures.FindOrCreateRoleTwice | src/main/java/org/openmrs/uitestframework/test/TestBase.java:465-476 | A second call for the same name yields the same uuid and reports the role as not created |
| Fixtures.ProviderPatchIsFill | src/main/java/org/openmrs/uitestframework/test/TestBase.java:439-444 | The provider patch is the XML pieces with the provider id, the uuid and the decimal role id between them |
| Fixtures.ProviderPatchReadBack | src/main/java/org/openmrs/uitestframework/test/TestBase.java:439-444 | For an id and uuid without a single quote, the three attributes of the patch read back as the provider id, uuid and role id that went in |
| JavaText.IntRoundTrip | src/main/java/org/openmrs/uitestframework/test/TestBase.java:443 | The decimal text of an int reads back as the same int |
| JavaText.FormatOneSlot | src/main/java/org/openmrs/uitestframework/test/TestBase.java:350-352 | A template with one %s and no other '%' formats to the template with the argument in its place |
| JavaText.FormatPlain | src/main/java/org/openmrs/uitestframework/test/TestBase.java:350-352 | A template without '%' formats to itself |
| JavaText.IndexOf | src/main/java/org/openmrs/uitestframework/test/TestBase.java:287 | The position found is an occurrence, with none before it; no position is found only when there is no occurrence |
| JavaText.SubstringAfter | src/main/java/org/openmrs/uitestframework/test/TestBase.java:287 | The text after the first occurrence of the separator, and "" when it does not occur |
| Patients.PatientIdFromUrlOf | src/main/java/org/openmrs/uitestframework/test/TestBase.java:285-288 | For a page part without '=', the id extracted from page + "patientId=" + id is exactly id, whatever id contains |
| Patients.WaitForPatientDeletion | src/main/java/org/openmrs/uitestframework/test/TestBase.java:484-492 | The wait ends in the first round in which the patient is gone or more than 30000 ms have passed; it ends normally exactly when the patient is gone, and times out only when it is still there past 30000 ms |
| Patients.WaitEndsByRound150 | src/main/java/org/openmrs/uitestframework/test/TestBase.java:486-490 | When each 200 ms sleep advances the clock, round 150 ends the wait at the latest |
| Patients.WaitWithAdvancingClock | src/main/java/org/openmrs/uitestframework/test/TestBase.java:484-492 | With the clock advancing by the sleeps, the wait needs at most 151 rounds |
| Login.PostCallIsFill | src/main/java/org/openmrs/uitestframework/page/LoginPage.java:59 | The post call is its literal pieces with the url, the user, the password and the decimal location between them |
| Login.PostCallReadBack | src/main/java/org/openmrs/uitestframework/page/LoginPage.java:59 | For a url and credentials without a single quote, the post call carries exactly that url, user, password and location |
| Login.LoginStepsPostCredentials | src/main/java/org/openmrs/uitestframework/page/LoginPage.java:38-44 | A login is three steps in order: wait for the page, run post.js followed by a post of the given credentials and location to URL_ROOT + "/login.htm", then wait for the link to URL_ROOT + "/logout" |
| Login.LoginPostsCredentials | src/main/java/org/openmrs/uitestframework/page/LoginPage.java:38-44 | The credentials read back from a login's script are the ones it was given |
| Login.PresetLoginsPostTheirCredentials | src/main/java/org/openmrs/uitestframework/page/LoginPage.java:19-26 | The clerk, nurse, doctor and sysadmin logins post clerk/Clerk123, nurse/Nurse123, doctor/Doctor123 and sysadmin/Sysadmin123 at location 1 |
| Login.LoginPage.constructor | src/main/java/org/openmrs/uitestframework/page/LoginPage.java:32-36 | The administrator credentials are captured once from the properties, and no step has been taken |
| Login.LoginPage.PostLoginForm | src/main/java/org/openmrs/uitestframework/page/LoginPage.java:46-60 | One script step: post.js followed by the post call to the expected url path |
| Login.LoginPage.Login | src/main/java/org/openmrs/uitestframework/page/LoginPage.java:38-44 | Appends exactly the three login steps |
| Login.LoginPage.LoginAtDefaultLocation | src/main/java/org/openmrs/uitestframework/page/LoginPage.java:62-64 | login(user, password) is the login at location 1 |
| Login.LoginPage.LoginAsAdmin | src/main/java/org/openmrs/uitestframework/page/LoginPage.java:66-68 | Logs in with the credentials captured by the constructor |
| Login.LoginPage.LoginAsClerk | src/main/java/org/openmrs/uitestframework/page/LoginPage.java:75-77 | Logs in as clerk/Clerk123 at location 1 |
| Login.LoginPage.LoginAsNurse | src/main/java/org/openmrs/uitestframework/page/LoginPage.java:79-81 | Logs in as nurse/Nurse123 at location 1 |
| Login.LoginPage.LoginAsDoctor | src/main/java/org/openmrs/uitestframework/page/LoginPage.java:83-85 | Logs in as doctor/Doctor123 at location 1 |
| Login.LoginPage.LoginAsSysadmin | src/main/java/org/openmrs/uitestframework/page/LoginPage.java:87-89 | Logs in as sysadmin/Sysadmin123 at location 1 |

`expectedUrlPath` is the function `Login.ExpectedUrlPath`, which is
`URL_ROOT + "/login.htm"`. What it means is stated by
`Login.LoginStepsPostCredentials`: the form is posted to that url.

## Left out

- **What DbUnit does with a data set.** The selects are not run, connections are not opened, and the tables are not deleted in any particular order. The store only records which entries it was handed and with which operation. `getDbTester`, `onTearDown`'s own failures and connection errors are left out too.
- **Case in table names.** `addTable` compares table names as exact strings. Every name the modelled code uses is lower case, so no two of them differ only in case.
- **The other `String.format` conversions.** Only `%s` and `%%` are modelled. The templates of this code use nothing else.
- **Java `null` strings.** Only the uuid of a `RoleInfo` can be missing; it renders as `null` inside the quotes. Elsewhere, ids and names are always present strings.
- **The range of `int`.** The provider role id and the login location are unbounded integers. Their decimal text is the same as Java's for every value an `int` can hold.
- **Remote API calls and the `TestData` and `RestClient` helpers.** The role lookup and creation are a map of known roles, and the uuid a creation returns is a parameter. `checkIfPatientExists` and the clock readings are the rounds given to the wait. `TestProvider`, `getId` and `getProviderRoleId` are not part of this model. The provider patch takes their results as its arguments.
- **Role order in `createUser`**, that is, the given role followed by "Privilege Level: Full". `UserInfo.addRole` is not part of this model.
- **The UPDATE that applies the provider patch** and the exceptions it prints and swallows.
- Patients.WaitForPatientDeletion: it requires that some round ends the wait. The real loop ends because the clock moves on; `WaitEndsByRound150` shows that 151 rounds always suffice when each sleep advances the clock by 200 ms.
- **Sleeps and time.** `Thread.sleep` and the system clock are not modelled. The clock readings come in with the rounds.
- **The instance `dbUnitTearDown()`.** It tears down with `dbUnitTearDownOperation()`, which is DELETE unless a subclass overrides it. Only the static forms are modelled; a teardown with any other operation is `DbUnitTearDownStatic` with that operation.
- **Concurrency.** The static ledger is modelled as one sequential object, without threads that share it.
- **`checkDataSet`** is only created lazily. The code shown never fills it and never flushes it.
- **The text of `post.js`.** It is a constructor parameter that holds the resource's contents. The `IOException` raised when the resource cannot be read is left out.
- **The browser's side of the steps.** How the page becomes ready, what the posted form does on the server, and the wait timeout are left out.
- **`URL_ROOT`** is a constructor parameter. Its definition is not part of this model.
- Ledger.CleanupLedger.DeleteUser: a failure is a returned value, not an exception. The argument-less teardown is modelled as a teardown with DELETE.
