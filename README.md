# EasyConsult in Dafny

A Dafny model of the logic at the core of EasyConsult, a browser application
for scheduling medical appointments. It manages patients (`Paciente`),
practitioners (`Profissional`) and appointments (`Consulta`). The model covers:

- **Record store** (`Storage`). `StorageService` keeps one collection of
  serialized records under one key of `localStorage`. It reads and writes the
  whole collection on every call: `getAll`, `getById`, `save` (an upsert by id),
  `remove`, `clear` and `filter`.
- **Event bus** (`Observer`). `EventEmitter` maps each event name to the ordered
  list of its subscribed handlers. It supports subscribe, the unsubscribe
  closure, emit, clearEvent and clearAll.
- **Entity factory** (`Factory`). `EntityFactory.create` dispatches on the type
  tag without regard to case. It fills absent properties with `''` and keeps a
  non-empty `data.id`, otherwise it uses a generated id.
- **Record models** (`PacienteModel`, `ProfissionalModel`, `ConsultaModel`). Each
  has a constructor, `toJSON` and `fromJSON`. `Paciente` also has `getIdade`,
  `Profissional` has `getDescricaoCompleta`, and a live `Consulta` object has
  `alterarStatus`, which is limited to four statuses.
- **Configuration** (`AppConfig`). A `Config` object with a mutable settings map,
  `get`, `set`, `getStorageKey` and `formatTime`.
- **Appointment controller helpers** (`ConsultaController`). The `DD/MM/YYYY`
  input mask, the list filters by date and by practitioner, and the date shown
  in each table row.

How the model represents the program:

- A serialized record (a JSON object) is a `map<string, string>` (`Json.JsonObject`).
  An absent property is JavaScript's `undefined`.
- A model field that the constructor copies from an argument is an
  `Option<string>` (`Json.Field`), so `fromJSON` on an object missing a property
  behaves as in JavaScript. `JSON.stringify` omits such a property again
  (`Json.Stringified`).
- `localStorage` is a class `Storage.LocalStorage` whose `entries` map each key to
  the parsed array or to `Unparseable`. Several `StorageService` objects share
  one `LocalStorage`.
- The event bus and the configuration are classes whose methods update their
  map fields in place. The record models are datatypes with pure functions. The
  one in-place update of a record, `alterarStatus`, is a method on
  `ConsultaModel.ConsultaObject`.
- The clock (`new Date().toISOString()`), `config.generateId()` and the success of
  a `localStorage` write are parameters: `now`, `freshId`, `writeFails`,
  `removeFails`. For `getIdade`, today's date and the parsed birth date are
  passed in as (year, month, day).

`toLowerCase` is modelled on ASCII letters only. This is exact for the factory's
dispatch: the only non-ASCII character that lower-cases to an ASCII letter is
the Kelvin sign, which becomes `k`, and none of the three tags contains `k`.

## Model

| member | source | states |
|---|---|---|
| `Storage.StorageService.constructor` | js/services/storage-service.js:16-19 | the storage key is the configuration's `getStorageKey(entityName)` |
| `Storage.ItemsAt` | js/services/storage-service.js:25-32 | reading a collection never fails: an absent key or an unparseable value reads as the empty sequence |
| `Storage.StorageService.GetAll` | js/services/storage-service.js:25-32 | `getAll` returns the stored array, or `[]` when the key is absent or does not parse |
| `Storage.IndexOf` | js/services/storage-service.js:58 | `findIndex` gives -1 exactly when no record has the id, otherwise the first position whose id matches |
| `Storage.FindFirst` | js/services/storage-service.js:40-43 | `getById` yields null exactly when no record has the id, otherwise the first record with that id |
| `Storage.StorageService.GetById` | js/services/storage-service.js:40-48 | the result is null iff no stored record has the id, otherwise a stored record with that id |
| `Storage.UpsertReplaces` | js/services/storage-service.js:57-63 | saving an existing id replaces the first record with that id; the length and every other position are unchanged |
| `Storage.UpsertAppends` | js/services/storage-service.js:64-66 | saving a new id appends the record after the unchanged existing records |
| `Storage.FindAfterUpsert` | js/services/storage-service.js:40-69 | after a save, `getById` of the saved id returns the saved record |
| `Storage.UpsertKeepsIdsUnique` | js/services/storage-service.js:55-69 | a save keeps the ids of a collection pairwise distinct |
| `Storage.StorageService.Save` | js/services/storage-service.js:55-74 | the new collection is the upsert of the old one; a failing write returns false and stores nothing |
| `Storage.WithoutId` | js/services/storage-service.js:84 | no record with the removed id remains |
| `Storage.WithoutIdRemoves` | js/services/storage-service.js:83-89 | every record with the id is dropped, every other kept as often as before; the collection shrinks iff some record had the id |
| `Storage.WithoutIdKeepsOrder` | js/services/storage-service.js:84 | the kept records stay in stored order: removal distributes over any split of the collection |
| `Storage.WithoutAbsentId` | js/services/storage-service.js:84-91 | removing an id that is not stored leaves the collection as it was |
| `Storage.FindAfterWithoutId` | js/services/storage-service.js:83-89 | after a removal, `getById` of the removed id returns null |
| `Storage.StorageService.Remove` | js/services/storage-service.js:81-96 | returns true iff some record had the id and the write succeeds, and then stores the rest; otherwise the store is unchanged |
| `Storage.StorageService.Clear` | js/services/storage-service.js:102-110 | deletes the key, so a later `getAll` is empty; a failing removal returns false and changes nothing |
| `Storage.StorageService.Filter` | js/services/storage-service.js:117-125 | exactly the stored records that satisfy the predicate |
| `Observer.EventEmitter.constructor` | js/services/observer.js:18-21 | a new bus has no events |
| `Observer.EventEmitter.Handlers` | js/services/observer.js:51-53 | the handlers of an event without an entry are none |
| `Observer.EventEmitter.Subscribe` | js/services/observer.js:29-42 | the event's list (created when absent) gains the callback at its end; every other event is unchanged; the unsubscribe capability is returned |
| `Observer.Without` | js/services/observer.js:40 | the unsubscribed callback no longer occurs in the list |
| `Observer.WithoutCounts` | js/services/observer.js:39-41 | unsubscribing drops every occurrence of the callback and keeps every other handler as often as before |
| `Observer.WithoutKeepsOrder` | js/services/observer.js:39-41 | the remaining handlers keep their registration order |
| `Observer.WithoutIdempotent` | js/services/observer.js:40 | a second unsubscribe of the same callback changes nothing |
| `Observer.WithoutAbsent` | js/services/observer.js:40 | unsubscribing a callback that is not listed changes nothing |
| `Observer.EventEmitter.Unsubscribe` | js/services/observer.js:39-41 | while the event has an entry, its list loses the callback; after `clearEvent`/`clearAll` the call fails (TypeError) and changes nothing |
| `Observer.EventEmitter.Emit` | js/services/observer.js:49-57 | calls exactly the handlers listed for the event, in registration order, each with the payload; none when the event has no entry |
| `Observer.EventEmitter.ClearEvent` | js/services/observer.js:63-67 | only that event's entry is removed |
| `Observer.EventEmitter.ClearAll` | js/services/observer.js:72-74 | no event has handlers afterwards |
| `Factory.ToLower` | js/models/factory.js:21 | lower-casing keeps the length and lowers each character |
| `Factory.IdOrFresh` | js/models/factory.js:39 | a non-empty `data.id` is kept verbatim, otherwise the generated id is used |
| `Factory.TextOrEmpty` | js/models/factory.js:42-45 | a present property is copied, an absent one becomes `''` |
| `Factory.CreatePaciente` | js/models/factory.js:38-47 | the patient's id and fields are the defaulted properties of `data`, registered at `now` |
| `Factory.CreateProfissional` | js/models/factory.js:54-63 | the practitioner's id and fields are the defaulted properties of `data`, registered at `now` |
| `Factory.CreateConsulta` | js/models/factory.js:70-80 | the appointment's id and fields are the defaulted properties of `data`, with status "Agendada" |
| `Factory.Create` | js/models/factory.js:20-31 | succeeds iff the lower-cased tag is one of the three, then builds that record; any other tag is an unsupported-type error |
| `Factory.CreateIgnoresCase` | js/models/factory.js:21-27 | two tags equal up to letter case dispatch alike |
| `Factory.CreateAnyCasingOfPaciente` | js/models/factory.js:21-23 | "PACIENTE" and "Paciente" both build a patient |
| `Factory.CreateRejectsUnknown` | js/models/factory.js:28-29 | the tag "invalido" is rejected as unsupported |
| `Factory.CreatedPacienteSerializesFully` | js/models/factory.js:38-47 | a created patient serializes with all six properties |
| `PacienteModel.NewPaciente` | js/models/paciente.js:17-24 | the constructor copies its five arguments and registers at `now` |
| `PacienteModel.GetIdade` | js/models/paciente.js:30-44 | null exactly when the birth date is empty, otherwise the age from the two dates |
| `PacienteModel.YearsBetweenBirthday` | js/models/paciente.js:35-43 | on or after this year's birthday the age is the year difference, before it one less |
| `PacienteModel.YearsBetweenIsCompletedYears` | js/models/paciente.js:35-43 | the age is the number of completed years: that anniversary is on or before today and the next is after |
| `PacienteModel.YearsBetweenNonNegative` | js/models/paciente.js:35-43 | someone born on or before today has a non-negative age |
| `PacienteModel.ToJSON` | js/models/paciente.js:50-59 | the object has only the six properties, each reading back the field |
| `PacienteModel.FromJSON` | js/models/paciente.js:66-76 | the fields are the object's properties; an empty or missing registration time becomes `now` |
| `PacienteModel.FromToJSON` | js/models/paciente.js:50-76 | a patient with a registration time survives `fromJSON(toJSON(p))` |
| `PacienteModel.ToFromJSON` | js/models/paciente.js:50-76 | `toJSON(fromJSON(o))` keeps the object's five properties and defaults the registration time |
| `ProfissionalModel.NewProfissional` | js/models/profissional.js:17-24 | the constructor copies id, name, specialty, licence and email verbatim |
| `ProfissionalModel.GetDescricaoCompleta` | js/models/profissional.js:30-32 | the description is as long as its three fields plus the 11 fixed characters |
| `ProfissionalModel.DescricaoParts` | js/models/profissional.js:30-32 | the description is name, " - ", specialty, " (CRM: ", licence, ")" at consecutive positions |
| `ProfissionalModel.ToJSON` | js/models/profissional.js:38-47 | the object has only the six properties, each reading back the field |
| `ProfissionalModel.FromJSON` | js/models/profissional.js:54-64 | the five fields are copied; an empty or missing registration time becomes `now` |
| `ProfissionalModel.FromToJSON` | js/models/profissional.js:38-64 | a practitioner with a registration time survives `fromJSON(toJSON(p))` |
| `ProfissionalModel.ToFromJSON` | js/models/profissional.js:38-64 | `toJSON(fromJSON(o))` keeps the object's five properties and defaults the registration time |
| `ConsultaModel.NewConsulta` | js/models/consulta.js:18-27 | the constructor copies its six arguments; the status is "Agendada", one of the valid four |
| `ConsultaModel.ConsultaObject.AlterarStatus` | js/models/consulta.js:49-57 | a valid status replaces the old one and nothing else changes; any other fails and changes nothing; the status stays valid |
| `ConsultaModel.ToJSON` | js/models/consulta.js:63-74 | the object has only the eight properties, each reading back the field |
| `ConsultaModel.FromJSON` | js/models/consulta.js:81-93 | the six fields are copied; an empty status becomes "Agendada" and an empty scheduling time `now` |
| `ConsultaModel.FromToJSON` | js/models/consulta.js:63-93 | an appointment with a status and scheduling time survives `fromJSON(toJSON(c))` |
| `ConsultaModel.FromJSONKeepsAnyStatus` | js/models/consulta.js:90 | `fromJSON` copies any non-empty status without validating it |
| `ConsultaModel.FromJSONAdmitsInvalidStatus` | js/models/consulta.js:90 | `fromJSON` accepts the status "Adiada", which is not in the valid set |
| `AppConfig.InitialSettings` | js/config.js:20-28 | the initial storage prefix is "easyConsult_" |
| `AppConfig.Config.constructor` | js/config.js:13-32 | the object starts with the initial settings |
| `AppConfig.Lookup` | js/config.js:39-41 | a setting is defined exactly when its key is present, and then reads its value |
| `AppConfig.Config.Get` | js/config.js:39-41 | `get(key)` is defined exactly when the key is set, and then reads its value |
| `AppConfig.Config.Set` | js/config.js:48-51 | afterwards `get(key)` is the value, every other key reads as before, and the object itself is returned |
| `AppConfig.LookupAfterSet` | js/config.js:39-50 | after `set(k, v)`, `get(k)` is `v` and every other key is unchanged |
| `AppConfig.StorageKeyOf` | js/config.js:57-59 | the storage key ends with the entity name |
| `AppConfig.Config.GetStorageKey` | js/config.js:57-59 | the key is the interpolated prefix followed by the name |
| `AppConfig.StorageKeyInjective` | js/config.js:57-59 | under one prefix, distinct entity names give distinct keys |
| `AppConfig.InitialPatientsKey` | js/config.js:57-59 | with the initial prefix, the patients' key is "easyConsult_pacientes" |
| `AppConfig.FormatTime` | js/config.js:82-84 | a given time is returned unchanged, a missing one becomes `''` |
| `ConsultaController.DigitsOf` | js/controllers/consulta-controller.js:35 | stripping non-digits leaves only digits |
| `ConsultaController.AtMostEight` | js/controllers/consulta-controller.js:37 | at most eight characters are kept, a prefix of the digits |
| `ConsultaController.SlashedLayout` | js/controllers/consulta-controller.js:39-43 | no slash for up to 2 digits, one after the 2nd for 3-4, after the 2nd and 4th for 5-8; the digits fill the other places in order |
| `ConsultaController.DateMaskShape` | js/controllers/consulta-controller.js:34-46 | the mask output is at most 10 characters of digits and '/', with slashes exactly at positions 2 and 5 as far as the digits reach |
| `ConsultaController.DateMaskDigits` | js/controllers/consulta-controller.js:35-42 | deleting the slashes gives the first min(8, n) digits of the input, in order |
| `ConsultaController.DateMaskIdempotent` | js/controllers/consulta-controller.js:34-46 | masking the mask's output gives the same string |
| `ConsultaController.FilterByField` | js/controllers/consulta-controller.js:202-208 | an active date or practitioner filter keeps exactly the records holding its value; an empty one keeps the list |
| `ConsultaController.ApplyFiltersIsOneFilter` | js/controllers/consulta-controller.js:202-208 | the two filters in a row equal one in-order filter by "matches every active filter" |
| `ConsultaController.ApplyFiltersMembership` | js/controllers/consulta-controller.js:202-208 | a record is listed exactly when it is stored and matches every active filter |
| `ConsultaController.JoinSplit` | js/controllers/consulta-controller.js:239 | joining the pieces of `split('-')` with '-' gives back the string |
| `ConsultaController.SplitPiece` | js/controllers/consulta-controller.js:239 | a piece without '-' followed by '-' splits off whole |
| `ConsultaController.DisplayDateReorders` | js/controllers/consulta-controller.js:239-240 | `ano-mes-dia`, with no '-' in the parts, is shown as `dia/mes/ano` |
| `ConsultaController.DisplayDateOfMaskedInput` | js/controllers/consulta-controller.js:239-240 | a date typed through the mask is shown as "undefined/undefined/" followed by the date |
| `ConsultaController.DisplayDateCorrectedIsIntended` | js/controllers/consulta-controller.js:239-240 | the corrected display shows a masked date unchanged and still reorders `YYYY-MM-DD` |

## Findings

| source | as written | input that shows it | evidently intended | confidence | as-written member | corrected member |
|---|---|---|---|---|---|---|
| js/controllers/consulta-controller.js:239-240 | the row date is `split('-')` and reordered, but the date input's mask (lines 34-46) stores `DD/MM/YYYY`, which has no '-' | typing `17102026` stores `17/10/2026`, shown as `undefined/undefined/17/10/2026` | show the stored date as `DD/MM/YYYY` | medium, not executed (the page markup, which fixes the input's type, is not part of this model) | `ConsultaController.DisplayDateOfMaskedInput` | `ConsultaController.DisplayDateCorrectedIsIntended` |

## Left out

- DOM wiring, HTML templates, `alert`/`confirm`, tabs and navigation (js/app.js and the rendering parts of the controllers): these are user interface only.
- js/controllers/paciente-controller.js and js/controllers/profissional-controller.js are not part of this model. They only wire the factory, the store and the bus together.
- `JSON.parse`/`JSON.stringify` are not modelled. The store holds already-parsed arrays, and a parse failure is the `Unparseable` entry. A stored value that parses to something other than an array (`null`, a number) is not represented, and neither is an empty-string value.
- `localStorage` write and removal failures (quota, security errors) are the `writeFails`/`removeFails` parameters. The reason for a failure and the `console.error` logging are not modelled.
- `config.generateId()` uses `Date.now` and `Math.random`; it is the `freshId` oracle, and its uniqueness is not modelled.
- The clock and date parsing are not modelled. This covers `Consulta.isFutura`, `config.formatDate`, the `new Date(a.data) - new Date(b.data)` / `localeCompare` sort of `carregarConsultas`, and how `getIdade` parses `dataNascimento`. The time zone and the NaN that an unparseable date gives are also not modelled.
- `PacienteModel.GetIdade`: the parsed dates are parameters, so an unparseable non-empty birth date (NaN age in the source) is not modelled.
- `Observer.EventEmitter.Emit`: handlers are opaque ids. It returns the calls it makes and does not run them, so a handler that throws and aborts delivery, or one that subscribes or unsubscribes during `emit`, is not modelled.
- Event names that are `Object.prototype` members (`"toString"`, `"constructor"`) are not modelled. For those, the source's `this.events[event]` is truthy before any subscribe. The application only uses `"<entity>:<action>"` names.
- The `Config` singleton trick (`Config.instance`) is not modelled: the model has one `Config` object.
- Settings values are strings, integers and booleans; JavaScript's floating-point numbers are not modelled.
- `toLowerCase` covers ASCII letters only. This is exact for the three tags, as explained above.
- Record properties are strings: non-string JSON values (numbers, nested objects) in stored records or factory input are not modelled.
