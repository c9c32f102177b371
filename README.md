# Template variants, compilation and the project role gate

A Dafny model of the core of a multi-channel notification platform. It covers two parts.

The first is the template engine. A stored template is a channel type plus an untyped `data` object. `map()` turns it into one of four typed views: email, text, push or webhook. Every channel other than `email`, `text` and `push` becomes a webhook. Each view copies its fields out of `data`. Email defaults `subject`, `text` and `html` to `""`, webhook defaults `headers` to `{}`, and every other field is copied as read. Each view validates `data` against its own list of required string fields. A missing field is reported with the message ``The `<field>` field on the `<locale>` template is missing and is required.``. Compiling applies the substitution renderer to a fixed set of fields, and to every top-level value of the push `custom` map and of the webhook `headers` and `body` maps.

The second is two pure helpers of the project service. The role gate refuses a caller whose role comes earlier in the ordered role list than the required minimum. The API-key builder writes `pk_` or `sk_` followed by a uuid with its first dash removed.

Files:

- `Json.dfy` (module `Json`): the untyped data blob as a JavaScript value (`Undefined`, `Null`, booleans, integers, strings, arrays, objects). It also gives the JavaScript operations the templates rely on: property access, `??`, `||`, truthiness, and `Object.keys(v)` followed by `v[key]`. That last one throws on `null` and `undefined`, and uses decimal index names for arrays and strings.
- `Template.dfy` (module `Templates`): the stored `Template` record and the required-error messages. It also has the validator abstraction and the key-by-key rendering loop. Each variant is a class: `EmailTemplate`, `TextTemplate`, `PushTemplate` and `WebhookTemplate`. Each class has a `FromJson` constructor (the `parseJson` field assignments), a `Compile` method and a `Validate` method. The dispatching `Map` method is here too.
- `ProjectService.dfy` (module `Projects`): `indexOf`, the role gate and API-key generation.
- `Wrappers.dfy`: `Option`.

Modelling choices:

- The renderer of `render/index` is not part of this model. `Compile` takes it as a parameter `render: (Value, Variables) -> string`, so every proved fact about compilation holds for any renderer. Nothing is assumed about its placeholder grammar, including what it does on text without placeholders. Its input is a JSON value, not a string, because the source hands it fields that may be `undefined` or non-strings (an absent `from`, or a `custom` or `body` value that is an object).
- `isValid` (in `core/validate`, not part of this model) is abstracted by `IsValid`. A schema passes exactly when every required field is present in `data` and holds a string. Otherwise it reports every failing field. An absent field gets the message configured for it through `requiredErrors`, and a non-string field gets `NotString`.
- `projectRoles` (in `Project.ts`, not part of this model) is a parameter: a role list ordered from lowest to highest. The lemmas that rely on its order assume it has no duplicates. The uuid and the scope are parameters of `GenerateApiKey`. Any scope other than `"public"` yields `sk_`, as the source's conditional does.

Each `Compile` postcondition determines every field of its result from the template's fields, the renderer and the variables. Compiling the same template twice with the same variables therefore gives the same payload. No compile or validate method has a `modifies` clause, so neither changes the template.

Behaviour of the code that is easy to misread:

- Email defaults `subject`, `text` and `html` to `""` when null or absent, and the webhook defaults `headers` to `{}` when falsy. Every other field of every view is copied as read, so an absent field stays `undefined`.
- The webhook `body` and the push `custom` are rendered one level deep. Each top-level value goes to the renderer once, even when it is an object. Nothing walks into nested objects.
- `Object.keys` on an absent (`undefined`) or `null` push `custom` or webhook `body` throws a `TypeError`, so compiling such a template fails. It does not yield an empty map. `Compile` returns that failure as `Failure(CannotConvertToObject(..))`.
- The rendered push `custom` and webhook `headers` and `body`, and the `requiredErrors` message map, are built by assigning into a fresh `{}`. An assignment to the key `__proto__` goes to the setter inherited from `Object.prototype`, which ignores a string, so that key never reaches the result. A required field named `__proto__` therefore has no configured message.
- Webhook templates are never validated: they inherit the base `validate`, which returns `[true, undefined]`.

## Model

| member | source | states |
|---|---|---|
| `Json.Truthy` | apps/platform/src/render/Template.ts:86-88 | null and undefined are falsy, every object and array (even an empty one) is truthy, and a string is truthy iff it is non-empty |
| `Json.Coalesce` | apps/platform/src/render/Template.ts:74-76 | `v ?? d` yields `v` or `d`, keeps a `v` that is neither null nor undefined, and a non-nullish fallback makes the result non-nullish, so `subject`, `text` and `html` are never null or undefined after parsing |
| `Json.Or` | apps/platform/src/render/Template.ts:209 | `v \|\| d` yields `v` or `d`, keeps a truthy `v`, and a truthy fallback makes the result truthy |
| `Json.OwnEntries` | apps/platform/src/render/Template.ts:166-169 | `Object.keys(v)` with `v[key]` fails exactly when `v` is null or undefined, with that value as the culprit. An object yields its own fields, and a number or boolean yields no keys. An array's keys are exactly its decimal index names, each bound to its element. A string's keys are exactly its decimal index names, each bound to the one-character string at that index |
| `Templates.RequiredMessage` | apps/platform/src/render/Template.ts:37 | the message is the sentence "The ‹field› field on the ‹locale› template is missing and is required.", with field and locale each in backticks. The field sits at offset 5 and the locale right after the fixed 16-character middle, and the fixed text adds 59 characters in all |
| `Templates.RequiredMessageIdentifiesField` | apps/platform/src/render/Template.ts:37 | on one template, two required-field messages are equal only when they name the same field |
| `Templates.RequiredErrors` | apps/platform/src/render/Template.ts:34-40 | the result's key set is exactly the given fields except `__proto__`, and each value is the required message for that field and the template's locale |
| `Templates.IsValid` | apps/platform/src/render/Template.ts:93-106 | the validator passes iff every required field holds a string, and a failure's error keys are exactly the required fields that do not |
| `Templates.ValidateRequired` | apps/platform/src/render/Template.ts:93-106 | validating against `requiredErrors` of the required list passes iff every listed field holds a string. A failure reports exactly the failing fields: absent ones with their message (none for `__proto__`), present non-strings as `NotString` |
| `Templates.AbsentFieldReported` | apps/platform/src/render/Template.ts:103-105 | an absent required field makes validation fail, and it is reported with its locale-qualified message, or with none when it is `__proto__` |
| `Templates.RenderEntries` | apps/platform/src/render/Template.ts:213-221 | the accumulated map has exactly the source keys except `__proto__`, and each value is the renderer applied to the source value |
| `Templates.EmailTemplate.FromJson` | apps/platform/src/render/Template.ts:67-77 | `from`, `cc`, `bcc` and `reply_to` are copied as they are (possibly undefined). `subject`, `text` and `html` default to `""` when null or absent |
| `Templates.EmailTemplate.Compile` | apps/platform/src/render/Template.ts:79-90 | subject, from, html and text are always present and rendered. `reply_to`, `cc` and `bcc` are present iff truthy on the template, and then rendered |
| `Templates.EmailTemplate.Validate` | apps/platform/src/render/Template.ts:92-107 | required list `from, subject, text, html`, each a string, with the `requiredErrors` messages of that list |
| `Templates.TextTemplate.FromJson` | apps/platform/src/render/Template.ts:118-122 | `text` is copied without a default, so it is undefined when absent |
| `Templates.TextTemplate.Compile` | apps/platform/src/render/Template.ts:124-126 | the only output field is `text`, rendered |
| `Templates.TextTemplate.Validate` | apps/platform/src/render/Template.ts:128-139 | required list `text`, with its `requiredErrors` message |
| `Templates.PushTemplate.FromJson` | apps/platform/src/render/Template.ts:156-163 | title, topic, body and custom are copied without defaults |
| `Templates.PushTemplate.Compile` | apps/platform/src/render/Template.ts:165-177 | fails iff `custom` is null or undefined. Otherwise `custom` keeps exactly its keys except `__proto__`, with rendered values, `topic` passes through unrendered, and title and body are rendered |
| `Templates.PushTemplate.Validate` | apps/platform/src/render/Template.ts:179-193 | required list `title, topic, body`, with the `requiredErrors` messages of that list |
| `Templates.WebhookTemplate.FromJson` | apps/platform/src/render/Template.ts:203-210 | `headers` becomes `{}` when `data.headers` is falsy, so it is always truthy. Method, endpoint and body are copied |
| `Templates.WebhookTemplate.Compile` | apps/platform/src/render/Template.ts:212-231 | fails iff headers or body is null or undefined (headers is checked first). Otherwise headers and body keep their key sets except `__proto__`, each top-level value is rendered once, the endpoint is rendered and the method is passed through |
| `Templates.WebhookTemplate.Validate` | apps/platform/src/render/Template.ts:30-32 | a webhook template is always valid |
| `Templates.Map` | apps/platform/src/render/Template.ts:18-28 | `email`, `text` and `push` select their views. Every other channel value selects the webhook view, and mapping never fails. The view holds the fields its `parseJson` assigns |
| `Projects.IndexOf` | apps/platform/src/projects/ProjectService.ts:81 | `indexOf` is -1 iff the element is absent, and otherwise the first position holding it |
| `Projects.IndexOfListed` | apps/platform/src/projects/ProjectService.ts:81 | in a duplicate-free role list every role's index is its position |
| `Projects.RequireProjectRole` | apps/platform/src/projects/ProjectService.ts:80-84 | refuses iff the index of `minRole` exceeds that of the caller's role, and then with a 403 and message `minimum project role <minRole> is required`. An equal role is admitted. An unlisted caller is refused for every listed `minRole` |
| `Projects.AdmittedIffNotLower` | apps/platform/src/projects/ProjectService.ts:81 | between listed roles, the caller passes iff the minimum role is not later in the list than the caller's role |
| `Projects.HigherRoleAdmitted` | apps/platform/src/projects/ProjectService.ts:81 | monotonicity: a role that passes a minimum is passed by every role listed after it |
| `Projects.RemoveFirst` | apps/platform/src/projects/ProjectService.ts:75 | `replace('-', '')` removes only the first dash: the string before it followed by the string after it, or the input unchanged when there is none |
| `Projects.RemoveFirstCount` | apps/platform/src/projects/ProjectService.ts:75 | when there is a dash, exactly one occurrence of it disappears |
| `Projects.GenerateApiKey` | apps/platform/src/projects/ProjectService.ts:74-78 | the key is `pk_` for public scope and `sk_` otherwise, followed by the uuid with its first dash removed |
| `Projects.ApiKeyOfCanonicalUuid` | apps/platform/src/projects/ProjectService.ts:75-77 | for an 8-4-4-4-12 uuid the key has 38 characters: the prefix, the first group, then the rest of the uuid with its three other dashes still in place |

## Left out

- `render/index`: the substitution grammar lives there and is not part of this model. The renderer is a parameter, and any exception it might raise on a non-string input is not modelled.
- `core/validate` and the JSON-schema library behind it (ajv with ajv-errors): they are abstracted as described above. The exact shape and wording of its non-required error objects are not modelled. The push and text schemas with `additionalProperties` set or unset behave the same here, because extra properties are never rejected.
- Persistence plumbing of the `Model` base class: `tableName`, `jsonAttributes`, `id`, `project_id`, `campaign_id` and timestamps. Only the base fields the core reads (`type`, `locale`, `data`) are copied by the `FromJson` constructors.
- The `Webhook` provider type beyond its four fields.
- JavaScript numbers are integers here, so floating point, `NaN` and `-0` truthiness are not modelled. Strings are sequences of characters rather than UTF-16 code units. Arrays have no holes. The order of `Object.keys` is not observable in the model, whose maps are unordered. The rendering loop takes keys in an arbitrary order and is proved correct for every order.
- `Templates.IsValid`: through `HoldsString`, a key stored with the value `undefined` counts as present and is reported as `NotString`, whereas the JSON-schema validator treats it as missing. Parsed JSON cannot hold `undefined`, so stored templates never reach this case.
- `data` is always an object, as its declared type says. A `data` that is not an object, where `data.x` would behave differently, is not modelled.
- The DB and query-builder functions of the project service: `adminProjectIds`, `getProject`, `createProject` and the API-key CRUD. Also left out are `projectRoleMiddleware`'s asynchronous `next()` chaining, `uuid()` generation and `new Date()` timestamps. All of these are I/O or nondeterministic.
- HTTP controllers, queue jobs and React UI components. These are routing, async jobs and rendering outside the core.
