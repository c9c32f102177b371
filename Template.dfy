/** The template variant model and compiler: a stored template is a channel
    discriminator plus an untyped `data` object; `Map` turns it into one of
    four typed views (email, text, push, webhook), each of which validates
    its `data` against a required-field list and compiles itself into a
    channel payload by applying the substitution renderer to its fields. */
module Templates {
  import opened Json
  import opened Wrappers

  /** The read-only variable context a template is rendered against. */
  type Variables = map<string, Value>

  /** The substitution function of `render/index`, whose grammar is not part
      of this model: any total function of a field value and the variables. */
  type Renderer = (Value, Variables) -> string

  /** A stored template row, as the persistence layer hands it over. */
  datatype Template = Template(channel: string, locale: string, data: map<string, Value>)

  // ---------------------------------------------------------------------------
  // Required-field messages

  /** The one key an assignment into a fresh `{}` cannot create: writing a
      string to `__proto__` goes to the setter inherited from
      `Object.prototype`, which ignores values that are not objects. */
  const ProtoKey: string := "__proto__"

  /** The user-facing message for one missing required field: the field's
      name in backticks after "The ", then the locale in backticks, inside a
      fixed sentence. */
  function RequiredMessage(field: string, locale: string): (m: string)
    ensures |m| == |field| + |locale| + 59
    ensures m[..5] == "The `" && m[5..5 + |field|] == field
    ensures m[5 + |field|..21 + |field|] == "` field on the `"
    ensures m[21 + |field|..21 + |field| + |locale|] == locale
    ensures m[21 + |field| + |locale|..] == "` template is missing and is required."
  {
    "The `" + field + "` field on the `" + locale + "` template is missing and is required."
  }

  /** Different fields get different messages on the same template, so an
      author can always tell which field a message is about. */
  lemma RequiredMessageIdentifiesField(f1: string, f2: string, locale: string)
    requires RequiredMessage(f1, locale) == RequiredMessage(f2, locale)
    ensures f1 == f2
  {
    // The field is the slice at offset 5 of either message, whose length
    // fixes the field's length.
  }

  /** `requiredErrors(...fields)`: one message per named field, keyed by the
      field, assigned one field at a time into a fresh `{}`, so a field named
      `__proto__` is lost. */
  method RequiredErrors(locale: string, fields: seq<string>) returns (errors: map<string, string>)
    ensures errors.Keys == (set f | f in fields) - {ProtoKey}
    ensures forall f | f in errors :: errors[f] == RequiredMessage(f, locale)
  {
    errors := map[];
    for i := 0 to |fields|
      invariant errors.Keys == (set f | f in fields[..i]) - {ProtoKey}
      invariant forall f | f in errors :: errors[f] == RequiredMessage(f, locale)
    {
      assert fields[..i + 1] == fields[..i] + [fields[i]];
      if fields[i] != ProtoKey {
        errors := errors[fields[i] := RequiredMessage(fields[i], locale)];
      }
    }
  }

  // ---------------------------------------------------------------------------
  // Schema validation (the `isValid` wrapper around the JSON-schema validator)

  /** Why one field failed: absent (with the configured message, if any), or
      present but not a string. */
  datatype FieldError = Required(message: Option<string>) | NotString

  /** `[true, undefined]` or `[false, errors]`. */
  datatype Outcome = Valid | Invalid(errors: map<string, FieldError>)

  /** An object schema whose required properties must be strings, with the
      messages to report for absent ones. */
  datatype Schema = Schema(required: seq<string>, requiredMessages: map<string, string>)

  predicate HoldsString(data: map<string, Value>, field: string) {
    field in data && data[field].Str?
  }

  /** The validator: it passes exactly when every required field holds a
      string, and otherwise reports exactly the failing fields. */
  function IsValid(schema: Schema, data: map<string, Value>): (r: Outcome)
    ensures r.Valid? <==> forall f | f in schema.required :: HoldsString(data, f)
    ensures r.Invalid? ==> r.errors.Keys == set f | f in schema.required && !HoldsString(data, f)
  {
    var failing := set f | f in schema.required && !HoldsString(data, f);
    assert forall f | f in schema.required :: f in failing || HoldsString(data, f);
    if failing == {} then Valid
    else
      var f :| f in failing;
      assert f in schema.required && !HoldsString(data, f);
      Invalid(map f | f in failing ::
                if f in data then NotString
                else Required(if f in schema.requiredMessages then Some(schema.requiredMessages[f]) else None))
  }

  /** What a variant's `validate` promises for its required-field list: it
      passes exactly when every listed field holds a string, and otherwise
      reports each failing field, an absent one with its required message
      (none for `__proto__`, which `requiredErrors` cannot record). */
  ghost predicate ReportsRequired(r: Outcome, required: seq<string>, locale: string, data: map<string, Value>) {
    && (r.Valid? <==> forall f | f in required :: HoldsString(data, f))
    && (r.Invalid? ==> r.errors.Keys == set f | f in required && !HoldsString(data, f))
    && (r.Invalid? ==> forall f | f in r.errors ::
          r.errors[f] == if f in data then NotString
                         else if f == ProtoKey then Required(None)
                         else Required(Some(RequiredMessage(f, locale))))
  }

  /** Validation against a schema configured with `requiredErrors` of its own
      required list. */
  method ValidateRequired(locale: string, required: seq<string>, data: map<string, Value>) returns (r: Outcome)
    ensures ReportsRequired(r, required, locale, data)
  {
    var messages := RequiredErrors(locale, required);
    r := IsValid(Schema(required, messages), data);
  }

  /** A required field that is absent is reported, with its message unless
      it is `__proto__`. */
  lemma AbsentFieldReported(r: Outcome, required: seq<string>, locale: string, data: map<string, Value>, field: string)
    requires ReportsRequired(r, required, locale, data)
    requires field in required && field !in data
    ensures r.Invalid? && field in r.errors
    ensures r.errors[field] == Required(if field == ProtoKey then None else Some(RequiredMessage(field, locale)))
  {
    assert !HoldsString(data, field);
  }

  // ---------------------------------------------------------------------------
  // Rendering every value of a keyed collection

  /** The `Object.keys(m).reduce(...)` of the push and webhook compilers: a
      fresh `{}` accumulator that receives, key by key, the rendered value.
      Every key survives except `__proto__`, whose assignment is lost. */
  method RenderEntries(m: map<string, Value>, render: Renderer, vars: Variables) returns (out: map<string, string>)
    ensures out.Keys == m.Keys - {ProtoKey}
    ensures forall k | k in out :: out[k] == render(m[k], vars)
  {
    out := map[];
    var pending := m.Keys;
    while pending != {}
      invariant pending <= m.Keys
      invariant out.Keys == (m.Keys - pending) - {ProtoKey}
      invariant forall k | k in out :: k in m && out[k] == render(m[k], vars)
      decreases pending
    {
      var k :| k in pending;
      if k != ProtoKey {
        out := out[k := render(m[k], vars)];
      }
      pending := pending - {k};
    }
  }

  // ---------------------------------------------------------------------------
  // Email

  datatype CompiledEmail = CompiledEmail(
    from: string,
    cc: Option<string>,
    bcc: Option<string>,
    replyTo: Option<string>,
    subject: string,
    text: string,
    html: string)

  const EmailRequired: seq<string> := ["from", "subject", "text", "html"]

  class EmailTemplate {
    var channel: string
    var locale: string
    var data: map<string, Value>
    var from: Value
    var cc: Value
    var bcc: Value
    var replyTo: Value
    var subject: Value
    var text: Value
    var html: Value

    /** The fields `parseJson` gives a template read from `t`. */
    ghost predicate ParsedFrom(t: Template)
      reads this
    {
      && channel == t.channel && locale == t.locale && data == t.data
      && from == Get(t.data, "from")
      && cc == Get(t.data, "cc")
      && bcc == Get(t.data, "bcc")
      && replyTo == Get(t.data, "reply_to")
      && subject == Coalesce(Get(t.data, "subject"), Str(""))
      && text == Coalesce(Get(t.data, "text"), Str(""))
      && html == Coalesce(Get(t.data, "html"), Str(""))
    }

    /** `fromJson`: copies the base fields, then the email fields; only
        subject, text and html fall back to the empty string. */
    constructor FromJson(t: Template)
      ensures ParsedFrom(t)
      ensures "subject" !in t.data ==> subject == Str("")
      ensures "text" !in t.data ==> text == Str("")
      ensures "html" !in t.data ==> html == Str("")
    {
      channel := t.channel;
      locale := t.locale;
      data := t.data;
      from := Get(t.data, "from");
      cc := Get(t.data, "cc");
      bcc := Get(t.data, "bcc");
      replyTo := Get(t.data, "reply_to");
      subject := Coalesce(Get(t.data, "subject"), Str(""));
      text := Coalesce(Get(t.data, "text"), Str(""));
      html := Coalesce(Get(t.data, "html"), Str(""));
    }

    /** The four main fields are always rendered; reply-to, cc and bcc appear
        exactly when they are truthy on the template, and then rendered. */
    method Compile(render: Renderer, vars: Variables) returns (email: CompiledEmail)
      ensures email.subject == render(subject, vars)
      ensures email.from == render(from, vars)
      ensures email.html == render(html, vars)
      ensures email.text == render(text, vars)
      ensures email.replyTo.Some? <==> Truthy(replyTo)
      ensures email.cc.Some? <==> Truthy(cc)
      ensures email.bcc.Some? <==> Truthy(bcc)
      ensures email.replyTo.Some? ==> email.replyTo.value == render(replyTo, vars)
      ensures email.cc.Some? ==> email.cc.value == render(cc, vars)
      ensures email.bcc.Some? ==> email.bcc.value == render(bcc, vars)
    {
      email := CompiledEmail(
        from := render(from, vars),
        cc := None,
        bcc := None,
        replyTo := None,
        subject := render(subject, vars),
        text := render(text, vars),
        html := render(html, vars));
      if Truthy(replyTo) { email := email.(replyTo := Some(render(replyTo, vars))); }
      if Truthy(cc) { email := email.(cc := Some(render(cc, vars))); }
      if Truthy(bcc) { email := email.(bcc := Some(render(bcc, vars))); }
    }

    /** from, subject, text and html must be strings in `data`. */
    method Validate() returns (r: Outcome)
      ensures ReportsRequired(r, EmailRequired, locale, data)
    {
      r := ValidateRequired(locale, EmailRequired, data);
    }
  }

  // ---------------------------------------------------------------------------
  // Text

  datatype CompiledText = CompiledText(text: string)

  const TextRequired: seq<string> := ["text"]

  class TextTemplate {
    var channel: string
    var locale: string
    var data: map<string, Value>
    var text: Value

    ghost predicate ParsedFrom(t: Template)
      reads this
    {
      && channel == t.channel && locale == t.locale && data == t.data
      && text == Get(t.data, "text")
    }

    /** `fromJson`: `text` is copied with no default. */
    constructor FromJson(t: Template)
      ensures ParsedFrom(t)
      ensures "text" !in t.data ==> text.Undefined?
    {
      channel := t.channel;
      locale := t.locale;
      data := t.data;
      text := Get(t.data, "text");
    }

    /** The payload has the single field `text`, rendered. */
    method Compile(render: Renderer, vars: Variables) returns (r: CompiledText)
      ensures r.text == render(text, vars)
    {
      r := CompiledText(render(text, vars));
    }

    /** `text` must be a string in `data`. */
    method Validate() returns (r: Outcome)
      ensures ReportsRequired(r, TextRequired, locale, data)
    {
      r := ValidateRequired(locale, TextRequired, data);
    }
  }

  // ---------------------------------------------------------------------------
  // Push

  datatype CompiledPush = CompiledPush(topic: Value, title: string, body: string, custom: map<string, string>)

  const PushRequired: seq<string> := ["title", "topic", "body"]

  class PushTemplate {
    var channel: string
    var locale: string
    var data: map<string, Value>
    var title: Value
    var topic: Value
    var body: Value
    var custom: Value

    ghost predicate ParsedFrom(t: Template)
      reads this
    {
      && channel == t.channel && locale == t.locale && data == t.data
      && title == Get(t.data, "title")
      && topic == Get(t.data, "topic")
      && body == Get(t.data, "body")
      && custom == Get(t.data, "custom")
    }

    /** `fromJson`: every push field is copied with no default. */
    constructor FromJson(t: Template)
      ensures ParsedFrom(t)
    {
      channel := t.channel;
      locale := t.locale;
      data := t.data;
      title := Get(t.data, "title");
      topic := Get(t.data, "topic");
      body := Get(t.data, "body");
      custom := Get(t.data, "custom");
    }

    /** `Object.keys(custom)` throws when custom is null or undefined;
        otherwise the payload keeps every key of custom but `__proto__`, with
        its value rendered, renders title and body, and passes topic through. */
    method Compile(render: Renderer, vars: Variables) returns (r: Result<CompiledPush>)
      ensures r.Failure? <==> Nullish(custom)
      ensures r.Failure? ==> r.error == CannotConvertToObject(custom)
      ensures r.Success? ==> r.value.topic == topic
      ensures r.Success? ==> r.value.title == render(title, vars) && r.value.body == render(body, vars)
      ensures r.Success? ==> r.value.custom.Keys == OwnEntries(custom).value.Keys - {ProtoKey}
      ensures r.Success? ==> forall k | k in r.value.custom ::
                r.value.custom[k] == render(OwnEntries(custom).value[k], vars)
    {
      var entries := OwnEntries(custom);
      if entries.Failure? {
        return Failure(entries.error);
      }
      var rendered := RenderEntries(entries.value, render, vars);
      r := Success(CompiledPush(topic, render(title, vars), render(body, vars), rendered));
    }

    /** title, topic and body must be strings in `data`. */
    method Validate() returns (r: Outcome)
      ensures ReportsRequired(r, PushRequired, locale, data)
    {
      r := ValidateRequired(locale, PushRequired, data);
    }
  }

  // ---------------------------------------------------------------------------
  // Webhook

  /** The request handed to the webhook provider. */
  datatype CompiledWebhook = CompiledWebhook(endpoint: string, httpMethod: Value, headers: map<string, string>, body: map<string, string>)

  class WebhookTemplate {
    var channel: string
    var locale: string
    var data: map<string, Value>
    var httpMethod: Value
    var endpoint: Value
    var body: Value
    var headers: Value

    ghost predicate ParsedFrom(t: Template)
      reads this
    {
      && channel == t.channel && locale == t.locale && data == t.data
      && httpMethod == Get(t.data, "method")
      && endpoint == Get(t.data, "endpoint")
      && body == Get(t.data, "body")
      && headers == Or(Get(t.data, "headers"), Obj(map[]))
    }

    /** `fromJson`: headers fall back to `{}` when falsy; the rest is copied. */
    constructor FromJson(t: Template)
      ensures ParsedFrom(t)
      ensures !Truthy(Get(t.data, "headers")) ==> headers == Obj(map[])
      ensures Truthy(headers)
    {
      channel := t.channel;
      locale := t.locale;
      data := t.data;
      httpMethod := Get(t.data, "method");
      endpoint := Get(t.data, "endpoint");
      body := Get(t.data, "body");
      headers := Or(Get(t.data, "headers"), Obj(map[]));
    }

    /** Headers and body keep their keys but `__proto__`, each top-level value rendered once
        (nested objects are handed to the renderer whole); the endpoint is
        rendered and the method passed through. `Object.keys` throws on a
        null or undefined headers or body, headers first. */
    method Compile(render: Renderer, vars: Variables) returns (r: Result<CompiledWebhook>)
      ensures r.Failure? <==> Nullish(headers) || Nullish(body)
      ensures r.Failure? ==> r.error == CannotConvertToObject(if Nullish(headers) then headers else body)
      ensures r.Success? ==> r.value.endpoint == render(endpoint, vars) && r.value.httpMethod == httpMethod
      ensures r.Success? ==> r.value.headers.Keys == OwnEntries(headers).value.Keys - {ProtoKey}
      ensures r.Success? ==> forall k | k in r.value.headers ::
                r.value.headers[k] == render(OwnEntries(headers).value[k], vars)
      ensures r.Success? ==> r.value.body.Keys == OwnEntries(body).value.Keys - {ProtoKey}
      ensures r.Success? ==> forall k | k in r.value.body ::
                r.value.body[k] == render(OwnEntries(body).value[k], vars)
    {
      var headerEntries := OwnEntries(headers);
      if headerEntries.Failure? {
        return Failure(headerEntries.error);
      }
      var renderedHeaders := RenderEntries(headerEntries.value, render, vars);
      var bodyEntries := OwnEntries(body);
      if bodyEntries.Failure? {
        return Failure(bodyEntries.error);
      }
      var renderedBody := RenderEntries(bodyEntries.value, render, vars);
      r := Success(CompiledWebhook(render(endpoint, vars), httpMethod, renderedHeaders, renderedBody));
    }

    /** Webhooks keep the base template's `validate`: always valid. */
    method Validate() returns (r: Outcome)
      ensures r == Valid
    {
      r := Valid;
    }
  }

  // ---------------------------------------------------------------------------
  // Dispatch

  /** The typed view `map()` produces. */
  datatype TemplateType =
    | EmailType(email: EmailTemplate)
    | TextType(text: TextTemplate)
    | PushType(push: PushTemplate)
    | WebhookType(webhook: WebhookTemplate)

  /** `map()`: the channel picks the view; every channel other than email,
      text and push yields a webhook, and mapping never fails. */
  method Map(t: Template) returns (v: TemplateType)
    ensures v.EmailType? <==> t.channel == "email"
    ensures v.TextType? <==> t.channel == "text"
    ensures v.PushType? <==> t.channel == "push"
    ensures v.WebhookType? <==> t.channel !in ["email", "text", "push"]
    ensures v.EmailType? ==> v.email.ParsedFrom(t)
    ensures v.TextType? ==> v.text.ParsedFrom(t)
    ensures v.PushType? ==> v.push.ParsedFrom(t)
    ensures v.WebhookType? ==> v.webhook.ParsedFrom(t)
  {
    if t.channel == "email" {
      var e := new EmailTemplate.FromJson(t);
      v := EmailType(e);
    } else if t.channel == "text" {
      var x := new TextTemplate.FromJson(t);
      v := TextType(x);
    } else if t.channel == "push" {
      var p := new PushTemplate.FromJson(t);
      v := PushType(p);
    } else {
      var w := new WebhookTemplate.FromJson(t);
      v := WebhookType(w);
    }
  }
}
