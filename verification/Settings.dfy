/** Runtime settings of one database session
    (src/wecom_ai_gateway/runtime_settings.py). */
module Settings {
  import opened Basics
  import opened Text

  /** The keys of the registry; two of them are treated specially. */
  datatype Key = PlatformMode | ToolsAllowed | Named(name: string)

  /** The keys of the platform_config table. */
  datatype ConfigKey = Mode | Plain(key: Key)

  /** A JSON value; an object is known by its "mode" member. */
  datatype Value =
    | Null
    | Bool(flag: bool)
    | Int(number: int)
    | Float(amount: real)
    | Str(text: string)
    | Object(mode: Option<Value>)
    | Other(rest: string)

  datatype Kind = BoolKind | IntKind | FloatKind | SelectKind | StrKind

  datatype Spec = Spec(
    kind: Kind,
    default: Value,
    env: Option<Value>,
    min: Option<real>,
    max: Option<real>,
    options: set<Value>,
    secret: bool,
    writeOnly: bool,
    editable: bool)

  /** The registry, and what is not computed here: reading numbers from text, the tool
      allow-list check, rendering a value as text, and encryption. */
  datatype World = World(
    specs: map<Key, Spec>,
    parseInt: string -> Option<int>,
    parseFloat: string -> Option<real>,
    allowListOk: string -> bool,
    shown: Value -> string,
    encrypt: Value -> Value)

  function Truncated(r: real): int {
    if r >= 0.0 then r.Floor else -((-r).Floor)
  }

  /** int() of a number cuts the fraction off, towards zero. */
  lemma TruncatedTowardZero(r: real)
    ensures r >= 0.0 ==> 0.0 <= Truncated(r) as real <= r < Truncated(r) as real + 1.0
    ensures r <= 0.0 ==> Truncated(r) as real - 1.0 < r <= Truncated(r) as real <= 0.0
  {
    if r < 0.0 {
      assert (-r).Floor as real <= -r;
    }
  }

  /** int(raw) */
  function AsInt(w: World, raw: Value): Option<int> {
    match raw
    case Bool(flag) => Some(if flag then 1 else 0)
    case Int(n) => Some(n)
    case Float(r) => Some(Truncated(r))
    case Str(s) => w.parseInt(s)
    case _ => None
  }

  /** float(raw) */
  function AsFloat(w: World, raw: Value): Option<real> {
    match raw
    case Bool(flag) => Some(if flag then 1.0 else 0.0)
    case Int(n) => Some(n as real)
    case Float(r) => Some(r)
    case Str(s) => w.parseFloat(s)
    case _ => None
  }

  predicate Within(spec: Spec, x: real) {
    && (spec.min.Some? ==> x >= spec.min.value)
    && (spec.max.Some? ==> x <= spec.max.value)
  }

  /** _coerce; None when it raises. */
  function Coerced(w: World, raw: Value, spec: Spec): Option<Value> {
    match spec.kind
    case BoolKind => if raw.Bool? then Some(raw) else None
    case IntKind =>
      var n := AsInt(w, raw);
      if n.Some? && Within(spec, n.value as real) then Some(Int(n.value)) else None
    case FloatKind =>
      var x := AsFloat(w, raw);
      if x.Some? && Within(spec, x.value) then Some(Float(x.value)) else None
    case SelectKind => if raw in spec.options then Some(raw) else None
    case StrKind =>
      if raw.Str? && (spec.max.Some? ==> |raw.text| as real <= spec.max.value) then Some(raw) else None
  }

  /** The value is one that a setting of this specification may have. */
  predicate Fits(spec: Spec, value: Value) {
    match spec.kind
    case BoolKind => value.Bool?
    case IntKind =>
      && value.Int?
      && (spec.min.Some? ==> spec.min.value <= value.number as real)
      && (spec.max.Some? ==> value.number as real <= spec.max.value)
    case FloatKind =>
      && value.Float?
      && (spec.min.Some? ==> spec.min.value <= value.amount)
      && (spec.max.Some? ==> value.amount <= spec.max.value)
    case SelectKind => value in spec.options
    case StrKind => value.Str? && (spec.max.Some? ==> |value.text| as real <= spec.max.value)
  }

  /** Coercion only gives values that fit, and leaves those alone. */
  lemma CoercedFits(w: World, raw: Value, spec: Spec)
    ensures Coerced(w, raw, spec).Some? ==> Fits(spec, Coerced(w, raw, spec).value)
    ensures Fits(spec, raw) ==> Coerced(w, raw, spec) == Some(raw)
  {
  }

  /** A coerced value is coerced to itself. */
  lemma CoercedTwice(w: World, raw: Value, spec: Spec)
    requires Coerced(w, raw, spec).Some?
    ensures Coerced(w, Coerced(w, raw, spec).value, spec) == Coerced(w, raw, spec)
  {
  }

  function ConfigKeyOf(key: Key): ConfigKey {
    if key == PlatformMode then Mode else Plain(key)
  }

  function ToStored(key: Key, value: Value): Value {
    if key == PlatformMode then Object(Some(value)) else value
  }

  function FromStored(key: Key, stored: Value): Value {
    if key == PlatformMode && stored.Object? then (if stored.mode.Some? then stored.mode.value else Null) else stored
  }

  type Rows = map<ConfigKey, Value>

  /** What a setting reads as, without any cache. A row that no longer validates falls back
      to the specification's default, not to the environment. */
  function Reading(w: World, rows: Rows, key: Key): Value
    requires key in w.specs
  {
    var spec := w.specs[key];
    if ConfigKeyOf(key) in rows then
      var v := Coerced(w, FromStored(key, rows[ConfigKeyOf(key)]), spec);
      if v.Some? then v.value else spec.default
    else if spec.env.Some? then spec.env.value
    else spec.default
  }

  /** One submitted value: left alone, refused, or to be saved as given. */
  datatype Verdict = Untouched | Refused | Accepted(value: Value)

  function Judged(w: World, key: Key, raw: Value): Verdict {
    if key !in w.specs then Refused
    else
      var spec := w.specs[key];
      if !spec.editable || (spec.secret && !spec.writeOnly) then Refused
      else if spec.writeOnly && (raw == Null || Strip(w.shown(raw), WHITESPACE) == "") then Untouched
      else
        var v := Coerced(w, raw, spec);
        if v == None || (key == ToolsAllowed && !(v.value.Str? && w.allowListOk(v.value.text))) then Refused
        else Accepted(if spec.writeOnly then w.encrypt(v.value) else v.value)
  }

  function Errors(w: World, values: map<Key, Value>): set<Key> {
    set k | k in values && Judged(w, k, values[k]).Refused?
  }

  function Normalized(w: World, values: map<Key, Value>): map<Key, Value> {
    map k | k in values && Judged(w, k, values[k]).Accepted? :: Judged(w, k, values[k]).value
  }

  /** The setting a table key belongs to. */
  function Owner(c: ConfigKey): Key {
    if c == Mode then PlatformMode else c.key
  }

  /** The table once the batch is written. */
  function Written(rows: Rows, batch: map<Key, Value>): Rows {
    map c | c in rows.Keys + set k | k in batch :: ConfigKeyOf(k) ::
      if Owner(c) in batch && ConfigKeyOf(Owner(c)) == c then ToStored(Owner(c), batch[Owner(c)]) else rows[c]
  }

  lemma WrittenOne(rows: Rows, batch: map<Key, Value>, done: set<Key>, key: Key)
    requires key in batch && key !in done && done <= batch.Keys
    ensures var before := map k | k in done :: batch[k];
            var after := map k | k in done + {key} :: batch[k];
            Written(rows, after) == Written(rows, before)[ConfigKeyOf(key) := ToStored(key, batch[key])]
  {
  }

  /** A written batch reads back as what was accepted, and every other setting reads as before. */
  lemma BatchReadsBack(w: World, rows: Rows, values: map<Key, Value>, key: Key)
    requires key in w.specs && Errors(w, values) == {}
    ensures var after := Written(rows, Normalized(w, values));
            if key in values && !w.specs[key].writeOnly then
              && Coerced(w, values[key], w.specs[key]).Some?
              && Reading(w, after, key) == Coerced(w, values[key], w.specs[key]).value
            else key !in Normalized(w, values) ==> Reading(w, after, key) == Reading(w, rows, key)
  {
    var batch := Normalized(w, values);
    var after := Written(rows, batch);
    if key in values {
      assert key !in Errors(w, values);
    }
    if key in batch {
      assert ConfigKeyOf(key) in after && after[ConfigKeyOf(key)] == ToStored(key, batch[key]);
      if !w.specs[key].writeOnly {
        CoercedTwice(w, values[key], w.specs[key]);
      }
    } else {
      assert Owner(ConfigKeyOf(key)) == key;
      assert ConfigKeyOf(key) in after <==> ConfigKeyOf(key) in rows;
    }
  }

  /** A write-only value that is null or blank is left as it is. */
  predicate LeftAlone(w: World, key: Key, raw: Value)
    requires key in w.specs
  {
    w.specs[key].writeOnly && (raw == Null || Strip(w.shown(raw), WHITESPACE) == "")
  }

  /** A submitted value is an error: the setting does not exist or may not be set, or the value
      is not left alone and does not pass. */
  predicate IsError(w: World, key: Key, raw: Value) {
    || key !in w.specs
    || !w.specs[key].editable
    || (w.specs[key].secret && !w.specs[key].writeOnly)
    || (!LeftAlone(w, key, raw)
        && match Coerced(w, raw, w.specs[key])
           case None => true
           case Some(v) => key == ToolsAllowed && !(v.Str? && w.allowListOk(v.text)))
  }

  lemma ErrorsAre(w: World, values: map<Key, Value>, key: Key)
    ensures key in Errors(w, values) <==> key in values && IsError(w, key, values[key])
  {
  }

  /** What a setting's row holds after a batch: a submitted value as coerced, encrypted when it
      is write-only, and the mode inside an object; a row nobody submitted as before. */
  ghost predicate Stored(w: World, before: Rows, after: Rows, values: map<Key, Value>, key: Key) {
    var c := if key == PlatformMode then Mode else Plain(key);
    if key !in values || key !in w.specs || LeftAlone(w, key, values[key]) then Lookup(after, c) == Lookup(before, c)
    else
      var v := Coerced(w, values[key], w.specs[key]);
      && v.Some?
      && var kept := if w.specs[key].writeOnly then w.encrypt(v.value) else v.value;
         Lookup(after, c) == Some(if key == PlatformMode then Object(Some(kept)) else kept)
  }

  /** Every accepted value is stored so, write-only ones encrypted. */
  lemma BatchStores(w: World, rows: Rows, values: map<Key, Value>, key: Key)
    requires Errors(w, values) == {}
    ensures Stored(w, rows, Written(rows, Normalized(w, values)), values, key)
  {
    var batch := Normalized(w, values);
    var after := Written(rows, batch);
    assert Owner(ConfigKeyOf(key)) == key;
    if key in values {
      assert key !in Errors(w, values);
    }
    if key in batch {
      assert ConfigKeyOf(key) in after && after[ConfigKeyOf(key)] == ToStored(key, batch[key]);
    }
  }

  /** A write-only setting submitted blank is neither refused nor changed. */
  lemma BlankLeavesSecret(w: World, rows: Rows, values: map<Key, Value>, key: Key)
    requires key in values && key in w.specs
    requires w.specs[key].writeOnly && w.specs[key].editable
    requires values[key] == Null || Strip(w.shown(values[key]), WHITESPACE) == ""
    ensures key !in Errors(w, values) && key !in Normalized(w, values)
    ensures Lookup(Written(rows, Normalized(w, values)), ConfigKeyOf(key)) == Lookup(rows, ConfigKeyOf(key))
  {
    assert Owner(ConfigKeyOf(key)) == key;
  }

  /** The reading order the module documents: a valid row, else the environment, else the
      built-in default. */
  function Documented(w: World, rows: Rows, key: Key): Value
    requires key in w.specs
  {
    var spec := w.specs[key];
    var row := Lookup(rows, ConfigKeyOf(key));
    var read := if row.Some? then Coerced(w, FromStored(key, row.value), spec) else None;
    if read.Some? then read.value else if spec.env.Some? then spec.env.value else spec.default
  }

  /** The documented order is kept exactly unless a row that does not validate hides an
      environment value other than the default. */
  lemma DocumentedOrder(w: World, rows: Rows, key: Key)
    requires key in w.specs
    ensures var spec, row := w.specs[key], Lookup(rows, ConfigKeyOf(key));
            (Reading(w, rows, key) == Documented(w, rows, key) <==>
              !(row.Some? && Coerced(w, FromStored(key, row.value), spec) == None
                && spec.env.Some? && spec.env.value != spec.default))
  {
  }

  /** A registry with one bounded number, which the environment sets to 7, over a default of 3. */
  function OneNumber(): World {
    World(map[Named("n") := Spec(IntKind, Int(3), Some(Int(7)), Some(1.0), Some(10.0), {}, false, false, true)],
          _ => None, _ => None, _ => true, _ => "", v => v)
  }

  /** A row out of bounds reads as 3, where the documented order gives 7. */
  lemma InvalidRowHidesEnvironment()
    ensures var w, rows := OneNumber(), map[Plain(Named("n")) := Int(99)];
            Reading(w, rows, Named("n")) == Int(3) && Documented(w, rows, Named("n")) == Int(7)
  {
    var w, rows := OneNumber(), map[Plain(Named("n")) := Int(99)];
    var key := Named("n");
    assert key in w.specs && !Within(w.specs[key], 99.0);
    assert Coerced(w, FromStored(key, rows[Plain(key)]), w.specs[key]) == None;
    DocumentedOrder(w, rows, key);
  }

  class Session {
    const w: World
    var rows: Rows
    var cache: map<Key, Value>

    constructor (w: World, rows: Rows)
      ensures this.w == w && this.rows == rows && Coherent()
    {
      this.w, this.rows, cache := w, rows, map[];
    }

    /** Every cached reading equals a fresh one. */
    predicate Coherent()
      reads this
    {
      forall k :: k in cache ==> k in w.specs && cache[k] == Reading(w, rows, k)
    }

    /** get_runtime_value; None for a key that is not in the registry. */
    method GetRuntimeValue(key: Key) returns (value: Option<Value>)
      requires Coherent()
      modifies this`cache
      ensures Coherent()
      ensures value == if key in w.specs then Some(Reading(w, rows, key)) else None
    {
      if key in cache {
        return Some(cache[key]);
      }
      if key !in w.specs {
        return None;
      }
      var spec := w.specs[key];
      var read := spec.default;
      if ConfigKeyOf(key) in rows {
        var v := Coerced(w, FromStored(key, rows[ConfigKeyOf(key)]), spec);
        if v.Some? {
          read := v.value;
        }
      } else if spec.env.Some? {
        read := spec.env.value;
      }
      cache := cache[key := read];
      return Some(read);
    }

    /** The validation pass over a batch. */
    method Validate(values: map<Key, Value>) returns (batch: map<Key, Value>, errors: set<Key>)
      ensures batch == Normalized(w, values) && errors == Errors(w, values)
      ensures forall k :: k in errors <==> k in values && IsError(w, k, values[k])
    {
      batch, errors := map[], {};
      var todo := values.Keys;
      while todo != {}
        invariant todo <= values.Keys
        invariant batch == map k | k in Normalized(w, values) && k !in todo :: Normalized(w, values)[k]
        invariant errors == Errors(w, values) - todo
        decreases todo
      {
        var key :| key in todo;
        match Judged(w, key, values[key]) {
          case Refused => errors := errors + {key};
          case Accepted(value) => batch := batch[key := value];
          case Untouched =>
        }
        todo := todo - {key};
      }
      forall k ensures k in errors <==> k in values && IsError(w, k, values[k]) {
        ErrorsAre(w, values, k);
      }
    }

    /** update_settings: everything is saved or, when anything is refused, nothing. */
    method UpdateSettings(values: map<Key, Value>) returns (errors: set<Key>)
      requires Coherent()
      modifies this`rows, this`cache
      ensures Coherent()
      ensures errors == Errors(w, values)
      ensures rows == if errors == {} then Written(old(rows), Normalized(w, values)) else old(rows)
      ensures forall k :: k in errors <==> k in values && IsError(w, k, values[k])
      ensures errors == {} ==> forall k :: Stored(w, old(rows), rows, values, k)
    {
      var batch;
      batch, errors := Validate(values);
      if errors != {} {
        return;
      }
      var todo := batch.Keys;
      ghost var done: set<Key> := {};
      while todo != {}
        invariant done + todo == batch.Keys && done !! todo
        invariant rows == Written(old(rows), map k | k in done :: batch[k])
        decreases todo
      {
        var key :| key in todo;
        WrittenOne(old(rows), batch, done, key);
        rows := rows[ConfigKeyOf(key) := ToStored(key, batch[key])];
        done := done + {key};
        todo := todo - {key};
      }
      assert (map k | k in done :: batch[k]) == batch;
      cache := map[];
      forall k ensures Stored(w, old(rows), rows, values, k) {
        BatchStores(w, old(rows), values, k);
      }
    }
  }
}
