/**
  The data shaping of the Pipedrive "Create Person" action: the request body
  built from the action's inputs (default fields, optional lists, custom
  fields with array values joined by commas) and the option lists of its
  dropdown inputs. The HTTP calls around them are not part of this model.
 */
module PipedrivePerson {
  import opened Wrappers

  /** A property value: undefined or null, a string, a number, or an array. */
  datatype Value = Absent | Str(s: string) | Num(n: int) | List(items: seq<Value>)

  // ---------------------------------------------------------------------------
  // Text of values, as JavaScript's String() and Array.prototype.join render them
  // ---------------------------------------------------------------------------

  predicate IsDigit(c: char) {
    '0' <= c <= '9'
  }

  function DigitChar(d: nat): (c: char)
    requires d < 10
    ensures IsDigit(c) && (c as int) - ('0' as int) == d
  {
    (('0' as int) + d) as char
  }

  /** Decimal digits of n, most significant first, without leading zeros. */
  function NatText(n: nat): (t: string)
    ensures 1 <= |t| && forall i :: 0 <= i < |t| ==> IsDigit(t[i])
    ensures t[0] == '0' ==> n == 0
  {
    if n < 10 then [DigitChar(n)] else NatText(n / 10) + [DigitChar(n % 10)]
  }

  function DigitOf(c: char): nat
    requires IsDigit(c)
  {
    (c as int) - ('0' as int)
  }

  /** The number a string of decimal digits denotes. */
  function DigitsValue(t: string): nat
    requires forall i :: 0 <= i < |t| ==> IsDigit(t[i])
  {
    if t == [] then 0 else DigitsValue(t[..|t| - 1]) * 10 + DigitOf(t[|t| - 1])
  }

  /** Rendering a natural number in decimal loses nothing. */
  lemma {:induction false} NatTextRoundTrip(n: nat)
    ensures DigitsValue(NatText(n)) == n
  {
    var t := NatText(n);
    if n >= 10 {
      NatTextRoundTrip(n / 10);
      assert t[..|t| - 1] == NatText(n / 10);
    }
  }

  /** String(n) for an integral number n: an optional minus sign, then digits. */
  function IntText(n: int): (t: string)
    ensures 1 <= |t| && ',' !in t
  {
    if n < 0 then "-" + NatText(-n) else NatText(n)
  }

  /** Number(t) for the texts IntText produces. */
  function IntValue(t: string): int
    requires t != [] && t[0] == '-' ==> forall i :: 1 <= i < |t| ==> IsDigit(t[i])
    requires t == [] || t[0] != '-' ==> forall i :: 0 <= i < |t| ==> IsDigit(t[i])
  {
    var negative := t != [] && t[0] == '-';
    var magnitude: int := if negative then DigitsValue(t[1..]) else DigitsValue(t);
    if negative then -magnitude else magnitude
  }

  /** Rendering an integer in decimal loses nothing. */
  lemma IntTextRoundTrip(n: int)
    ensures IntValue(IntText(n)) == n
  {
    if n < 0 {
      NatTextRoundTrip(-n);
      assert IntText(n)[1..] == NatText(-n);
    } else {
      NatTextRoundTrip(n);
    }
  }

  /** Array.prototype.join: the parts with `sep` between consecutive ones. */
  function Join(parts: seq<string>, sep: char): string {
    if |parts| == 0 then ""
    else if |parts| == 1 then parts[0]
    else parts[0] + [sep] + Join(parts[1..], sep)
  }

  /** String.prototype.split on one character: the inverse of Join. */
  function Split(s: string, sep: char): (parts: seq<string>)
    ensures |parts| >= 1
  {
    if s == [] then [""]
    else
      var rest := Split(s[1..], sep);
      if s[0] == sep then [""] + rest else [[s[0]] + rest[0]] + rest[1..]
  }

  lemma {:induction false} SplitNoSeparator(a: string, sep: char)
    requires sep !in a
    ensures Split(a, sep) == [a]
  {
    if a != [] {
      SplitNoSeparator(a[1..], sep);
      assert [a[0]] + a[1..] == a;
    }
  }

  lemma {:induction false} SplitAtFirstSeparator(a: string, b: string, sep: char)
    requires sep !in a
    ensures Split(a + [sep] + b, sep) == [a] + Split(b, sep)
  {
    var s := a + [sep] + b;
    if a == [] {
      assert s[0] == sep && s[1..] == b;
    } else {
      assert s[0] == a[0] && s[1..] == a[1..] + [sep] + b;
      SplitAtFirstSeparator(a[1..], b, sep);
      assert [a[0]] + a[1..] == a;
    }
  }

  /** Joining non-empty parts that do not contain the separator can be undone by splitting. */
  lemma {:induction false} SplitJoin(parts: seq<string>, sep: char)
    requires |parts| >= 1
    requires forall i :: 0 <= i < |parts| ==> sep !in parts[i]
    ensures Split(Join(parts, sep), sep) == parts
  {
    if |parts| == 1 {
      SplitNoSeparator(parts[0], sep);
    } else {
      SplitJoin(parts[1..], sep);
      SplitAtFirstSeparator(parts[0], Join(parts[1..], sep), sep);
      assert [parts[0]] + parts[1..] == parts;
    }
  }

  /** The texts of the elements of an array. */
  function ItemTexts(items: seq<Value>): (texts: seq<string>)
    ensures |texts| == |items|
    decreases items, 1
  {
    seq(|items|, i requires 0 <= i < |items| => ToText(items[i]))
  }

  /** The text `join` gives an element: undefined and null give "", an array is its elements joined by ','. */
  function ToText(v: Value): string
    decreases v, 0
  {
    match v
    case Absent => ""
    case Str(s) => s
    case Num(n) => IntText(n)
    case List(items) => Join(ItemTexts(items), ',')
  }

  /** How a custom field's value is sent: arrays become their comma-joined text, anything else as it is. */
  function Flatten(v: Value): (r: Value)
    ensures !r.List?
    ensures v.List? ==> r.Str?
    ensures !v.List? ==> r == v
    ensures v == List([]) ==> r == Str("")
  {
    if v.List? then Str(ToText(v)) else v
  }

  /**
    A flattened array keeps its elements: splitting the joined text at ','
    gives back the text of every element, in order, as long as the array is
    non-empty and no element's text contains a comma.
   */
  lemma FlattenSplitsBack(items: seq<Value>)
    requires |items| >= 1
    requires forall i :: 0 <= i < |items| ==> ',' !in ToText(items[i])
    ensures Flatten(List(items)).Str?
    ensures Split(Flatten(List(items)).s, ',') == ItemTexts(items)
  {
    SplitJoin(ItemTexts(items), ',');
  }

  /** An array of numbers, such as label ids, always splits back to its numbers' texts. */
  lemma FlattenNumbersSplitsBack(items: seq<Value>)
    requires |items| >= 1
    requires forall i :: 0 <= i < |items| ==> items[i].Num?
    ensures Split(Flatten(List(items)).s, ',') == ItemTexts(items)
  {
    FlattenSplitsBack(items);
  }

  // ---------------------------------------------------------------------------
  // The request body of run
  // ---------------------------------------------------------------------------

  /** The action's inputs; a None list or record is an input left undefined. */
  datatype PersonProps = PersonProps(
    name: string,
    ownerId: Value,
    organizationId: Value,
    marketingStatus: Value,
    visibleTo: Value,
    firstName: Value,
    lastName: Value,
    phone: Option<seq<string>>,
    email: Option<seq<string>>,
    labelIds: Option<seq<int>>,
    customFields: Option<map<string, Value>>)

  /** `x ?? []` */
  function OrEmpty<T>(o: Option<seq<T>>): seq<T> {
    if o.Some? then o.value else []
  }

  /** `x ?? {}` */
  function OrEmptyRecord(o: Option<map<string, Value>>): map<string, Value> {
    if o.Some? then o.value else map[]
  }

  function TextList(xs: seq<string>): (v: Value)
    ensures v.List? && |v.items| == |xs|
  {
    List(seq(|xs|, i requires 0 <= i < |xs| => Str(xs[i])))
  }

  function NumberList(xs: seq<int>): (v: Value)
    ensures v.List? && |v.items| == |xs|
  {
    List(seq(|xs|, i requires 0 <= i < |xs| => Num(xs[i])))
  }

  /**
    The default fields of a person, key by key: the seven fields always sent
    and the three lists sent only when non-empty. None means the key is not
    in the record.
   */
  function DefaultEntry(p: PersonProps, key: string): Option<Value> {
    var phone, email, labelIds := OrEmpty(p.phone), OrEmpty(p.email), OrEmpty(p.labelIds);
    match key
    case "name" => Some(Str(p.name))
    case "owner_id" => Some(p.ownerId)
    case "org_id" => Some(p.organizationId)
    case "marketing_status" => Some(p.marketingStatus)
    case "visible_to" => Some(p.visibleTo)
    case "first_name" => Some(p.firstName)
    case "last_name" => Some(p.lastName)
    case "phone" => if |phone| > 0 then Some(TextList(phone)) else None
    case "email" => if |email| > 0 then Some(TextList(email)) else None
    case "label_ids" => if |labelIds| > 0 then Some(NumberList(labelIds)) else None
    case _ => None
  }

  /**
    The default record always carries the seven fields, each from its input;
    phone, email and label_ids are there exactly when their list (a missing
    input counting as empty) is non-empty, and then hold it unchanged.
   */
  lemma DefaultEntries(p: PersonProps)
    ensures DefaultEntry(p, "name") == Some(Str(p.name))
    ensures DefaultEntry(p, "owner_id") == Some(p.ownerId)
    ensures DefaultEntry(p, "org_id") == Some(p.organizationId)
    ensures DefaultEntry(p, "marketing_status") == Some(p.marketingStatus)
    ensures DefaultEntry(p, "visible_to") == Some(p.visibleTo)
    ensures DefaultEntry(p, "first_name") == Some(p.firstName)
    ensures DefaultEntry(p, "last_name") == Some(p.lastName)
    ensures DefaultEntry(p, "phone").Some? <==> p.phone.Some? && |p.phone.value| > 0
    ensures DefaultEntry(p, "email").Some? <==> p.email.Some? && |p.email.value| > 0
    ensures DefaultEntry(p, "label_ids").Some? <==> p.labelIds.Some? && |p.labelIds.value| > 0
    ensures DefaultEntry(p, "phone").Some? ==> DefaultEntry(p, "phone").value == TextList(p.phone.value)
    ensures DefaultEntry(p, "email").Some? ==> DefaultEntry(p, "email").value == TextList(p.email.value)
    ensures DefaultEntry(p, "label_ids").Some? ==> DefaultEntry(p, "label_ids").value == NumberList(p.labelIds.value)
  {
  }

  /** personDefaultFields: the seven fields, then each non-empty list added in turn. */
  method DefaultFields(p: PersonProps) returns (fields: map<string, Value>)
    ensures forall k :: k in fields <==> DefaultEntry(p, k).Some?
    ensures forall k :: k in fields ==> fields[k] == DefaultEntry(p, k).value
  {
    var phone := OrEmpty(p.phone);
    var email := OrEmpty(p.email);
    var labelIds := OrEmpty(p.labelIds);
    fields := map[
      "name" := Str(p.name),
      "owner_id" := p.ownerId,
      "org_id" := p.organizationId,
      "marketing_status" := p.marketingStatus,
      "visible_to" := p.visibleTo,
      "first_name" := p.firstName,
      "last_name" := p.lastName];
    if |phone| > 0 {
      fields := fields["phone" := TextList(phone)];
    }
    if |email| > 0 {
      fields := fields["email" := TextList(email)];
    }
    if |labelIds| > 0 {
      fields := fields["label_ids" := NumberList(labelIds)];
    }
  }

  /** personCustomFiels: every custom field, arrays flattened, keys kept. */
  method FormatCustomFields(custom: map<string, Value>) returns (out: map<string, Value>)
    ensures out.Keys == custom.Keys
    ensures forall k :: k in custom ==> out[k] == Flatten(custom[k])
  {
    out := map[];
    var todo := custom.Keys;
    while todo != {}
      invariant todo <= custom.Keys
      invariant out.Keys == custom.Keys - todo
      invariant forall k :: k in out ==> out[k] == Flatten(custom[k])
      decreases todo
    {
      var k :| k in todo;
      out := out[k := Flatten(custom[k])];
      todo := todo - {k};
    }
  }

  /** `{...defaults, ...custom}`: every key of either record, the custom value winning a collision. */
  function Merge(defaults: map<string, Value>, custom: map<string, Value>): (body: map<string, Value>)
    ensures body.Keys == defaults.Keys + custom.Keys
    ensures forall k :: k in custom ==> body[k] == custom[k]
    ensures forall k :: k in defaults && k !in custom ==> body[k] == defaults[k]
  {
    defaults + custom
  }

  /**
    The body run posts to /persons: the default fields overridden by the
    formatted custom fields.
   */
  method PersonRequestBody(p: PersonProps) returns (body: map<string, Value>)
    ensures var custom := OrEmptyRecord(p.customFields);
      && (forall k :: k in body <==> k in custom || DefaultEntry(p, k).Some?)
      && (forall k :: k in custom ==> body[k] == Flatten(custom[k]))
      && (forall k :: k !in custom && DefaultEntry(p, k).Some? ==> body[k] == DefaultEntry(p, k).value)
  {
    var defaults := DefaultFields(p);
    var custom := FormatCustomFields(OrEmptyRecord(p.customFields));
    body := Merge(defaults, custom);
  }

  // ---------------------------------------------------------------------------
  // Dropdown option loaders
  // ---------------------------------------------------------------------------

  /** The connection the loaders receive; only whether it is present matters here. */
  datatype Auth = Auth(accessToken: string, apiDomain: string)

  datatype DropdownOption = DropdownOption(labelText: string, value: int)

  datatype DropdownState = DropdownState(disabled: bool, options: seq<DropdownOption>, placeholder: Option<string>)

  const ConnectPrompt := "Please connect your account."

  /** What every loader answers without a connection. */
  const Disconnected := DropdownState(true, [], Some(ConnectPrompt))

  /**
    The owner and organization loaders: without a connection the dropdown is
    disabled and empty; with one it offers the options fetched for it.
   */
  function AccountDropdown(auth: Option<Auth>, fetched: seq<DropdownOption>): (r: DropdownState)
    ensures auth.None? ==> r.disabled && r.options == [] && r.placeholder == Some(ConnectPrompt)
    ensures auth.Some? ==> !r.disabled && r.options == fetched && r.placeholder == None
  {
    if auth.None? then Disconnected else DropdownState(false, fetched, None)
  }

  /** One option of a person field, as /personFields lists it. */
  datatype FieldOption = FieldOption(id: int, labelText: string)

  datatype PersonField = PersonField(key: string, name: string, options: Option<seq<FieldOption>>)

  /** Array.prototype.find on the field key: the first field with that key. */
  function FindField(fields: seq<PersonField>, key: string): (r: Option<nat>)
    ensures r.Some? ==> r.value < |fields| && fields[r.value].key == key
    ensures r.Some? ==> forall j :: 0 <= j < r.value ==> fields[j].key != key
    ensures r.None? ==> forall j :: 0 <= j < |fields| ==> fields[j].key != key
  {
    if fields == [] then None
    else if fields[0].key == key then Some(0)
    else
      match FindField(fields[1..], key)
      case None =>
        assert forall j :: 1 <= j < |fields| ==> fields[j] == fields[1..][j - 1];
        None
      case Some(i) =>
        assert fields[i + 1] == fields[1..][i];
        Some(i + 1)
  }

  /**
    `options` are the label options: one per option of the first field keyed
    label_ids (a missing option list counting as empty), in order, its label
    as label and its id as value; none when no field has that key.
   */
  predicate IsLabelOptions(fields: seq<PersonField>, options: seq<DropdownOption>) {
    match FindField(fields, "label_ids")
    case None => options == []
    case Some(i) =>
      var src := OrEmpty(fields[i].options);
      && |options| == |src|
      && forall j :: 0 <= j < |src| ==> options[j] == DropdownOption(src[j].labelText, src[j].id)
  }

  /** The option list of the label loader. */
  method LabelOptions(fields: seq<PersonField>) returns (options: seq<DropdownOption>)
    ensures IsLabelOptions(fields, options)
  {
    options := [];
    var found := FindField(fields, "label_ids");
    if found.Some? {
      var src := OrEmpty(fields[found.value].options);
      for j := 0 to |src|
        invariant |options| == j
        invariant forall m :: 0 <= m < j ==> options[m] == DropdownOption(src[m].labelText, src[m].id)
      {
        options := options + [DropdownOption(src[j].labelText, src[j].id)];
      }
    }
  }

  /** The label loader: disabled and empty without a connection, else the label options. */
  method LabelIdsDropdown(auth: Option<Auth>, personFields: seq<PersonField>) returns (r: DropdownState)
    ensures auth.None? ==> r.disabled && r.options == [] && r.placeholder == Some(ConnectPrompt)
    ensures auth.Some? ==> !r.disabled && IsLabelOptions(personFields, r.options) && r.placeholder == None
  {
    if auth.None? {
      return Disconnected;
    }
    var options := LabelOptions(personFields);
    r := DropdownState(false, options, None);
  }

  /** The custom-fields input: no properties without a connection, else those fetched for it. */
  function CustomFieldProps<P>(auth: Option<Auth>, fetched: map<string, P>): (r: map<string, P>)
    ensures auth.None? ==> r == map[]
    ensures auth.Some? ==> r == fetched
  {
    if auth.None? then map[] else fetched
  }
}
