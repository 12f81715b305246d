/**
 * The window configuration record and the functional options that set it
 * (window.go). A WindowOption is applied to a configuration that the caller
 * owns and changes it in place; the pure function Applied says what one
 * application does to the configuration's value.
 */
module Window {

  /** The value of a window configuration: its five attributes. */
  datatype Config = Config(name: string, title: string, width: int, height: int, url: string)

  /** The attributes of a Config, so that "one field" can be spoken of uniformly. */
  datatype Field = NameField | TitleField | WidthField | HeightField | URLField

  /** What an attribute holds: the text attributes and the numeric ones. */
  datatype FieldValue = Text(text: string) | Number(number: int)

  /** The value of attribute `f` in `c`. */
  function Get(c: Config, f: Field): FieldValue
  {
    match f
    case NameField => Text(c.name)
    case TitleField => Text(c.title)
    case WidthField => Number(c.width)
    case HeightField => Number(c.height)
    case URLField => Text(c.url)
  }

  /**
   * A WindowOption. The first five are what WithName, WithTitle, WithWidth,
   * WithHeight and WithURL build, each closed over the value it writes;
   * Custom stands for any other implementation of the interface, a function
   * from the configuration it is given to the configuration it leaves behind.
   */
  datatype WindowOption =
    | SetName(name: string)
    | SetTitle(title: string)
    | SetWidth(width: int)
    | SetHeight(height: int)
    | SetURL(url: string)
    | Custom(f: Config -> Config)

  /** The attribute a With* option writes. */
  function FieldOf(o: WindowOption): Field
    requires !o.Custom?
  {
    match o
    case SetName(_) => NameField
    case SetTitle(_) => TitleField
    case SetWidth(_) => WidthField
    case SetHeight(_) => HeightField
    case SetURL(_) => URLField
  }

  /** The value a With* option writes into its attribute. */
  function Written(o: WindowOption): FieldValue
    requires !o.Custom?
  {
    match o
    case SetName(n) => Text(n)
    case SetTitle(t) => Text(t)
    case SetWidth(w) => Number(w)
    case SetHeight(h) => Number(h)
    case SetURL(u) => Text(u)
  }

  /** Option `o` leaves attribute `f` alone whatever the configuration. */
  predicate Leaves(o: WindowOption, f: Field)
  {
    !o.Custom? && FieldOf(o) != f
  }

  /**
   * The configuration that applying `o` to `c` leaves behind. A With* option
   * writes its value into its own attribute and nothing else; a custom option
   * is exactly its wrapped function.
   */
  function Applied(o: WindowOption, c: Config): (r: Config)
    ensures o.Custom? ==> r == o.f(c)
    ensures !o.Custom? ==> Get(r, FieldOf(o)) == Written(o)
    ensures !o.Custom? ==> forall g :: g != FieldOf(o) ==> Get(r, g) == Get(c, g)
  {
    match o
    case SetName(n) => c.(name := n)
    case SetTitle(t) => c.(title := t)
    case SetWidth(w) => c.(width := w)
    case SetHeight(h) => c.(height := h)
    case SetURL(u) => c.(url := u)
    case Custom(f) => f(c)
  }

  /** WithName: an option that sets Name and leaves the other four attributes as they were. */
  function WithName(name: string): (o: WindowOption)
    ensures forall c :: Applied(o, c) == Config(name, c.title, c.width, c.height, c.url)
  {
    SetName(name)
  }

  /** WithTitle: an option that sets Title only. */
  function WithTitle(title: string): (o: WindowOption)
    ensures forall c :: Applied(o, c) == Config(c.name, title, c.width, c.height, c.url)
  {
    SetTitle(title)
  }

  /** WithWidth: an option that sets Width only. */
  function WithWidth(width: int): (o: WindowOption)
    ensures forall c :: Applied(o, c) == Config(c.name, c.title, width, c.height, c.url)
  {
    SetWidth(width)
  }

  /** WithHeight: an option that sets Height only. */
  function WithHeight(height: int): (o: WindowOption)
    ensures forall c :: Applied(o, c) == Config(c.name, c.title, c.width, height, c.url)
  {
    SetHeight(height)
  }

  /** WithURL: an option that sets URL only. */
  function WithURL(url: string): (o: WindowOption)
    ensures forall c :: Applied(o, c) == Config(c.name, c.title, c.width, c.height, url)
  {
    SetURL(url)
  }

  /** Applying a With* option a second time changes nothing. */
  lemma ApplyIdempotent(o: WindowOption, c: Config)
    requires !o.Custom?
    ensures Applied(o, Applied(o, c)) == Applied(o, c)
  {
  }

  /** Of two With* options on the same attribute, the second one's value is what remains. */
  lemma LastWriteWins(first: WindowOption, second: WindowOption, c: Config)
    requires !first.Custom? && !second.Custom? && FieldOf(first) == FieldOf(second)
    ensures Applied(second, Applied(first, c)) == Applied(second, c)
  {
  }

  /** With* options on different attributes commute. */
  lemma DistinctFieldsCommute(o1: WindowOption, o2: WindowOption, c: Config)
    requires !o1.Custom? && !o2.Custom? && FieldOf(o1) != FieldOf(o2)
    ensures Applied(o2, Applied(o1, c)) == Applied(o1, Applied(o2, c))
  {
  }

  /** The WindowConfig record, whose attributes options assign in place. */
  class WindowConfig {
    var name: string
    var title: string
    var width: int
    var height: int
    var url: string

    /** The record's current value. */
    function Value(): Config
      reads this
    {
      Config(name, title, width, height, url)
    }

    constructor (c: Config)
      ensures Value() == c
    {
      name, title, width, height, url := c.name, c.title, c.width, c.height, c.url;
    }
  }

  /**
   * WindowOption.Apply: runs option `o` against the record `c` points to.
   * A With* option assigns its one attribute; a custom option's function
   * decides the whole new record.
   */
  method Apply(o: WindowOption, c: WindowConfig)
    modifies c
    ensures c.Value() == Applied(o, old(c.Value()))
  {
    match o
    case SetName(n) => c.name := n;
    case SetTitle(t) => c.title := t;
    case SetWidth(w) => c.width := w;
    case SetHeight(h) => c.height := h;
    case SetURL(u) => c.url := u;
    case Custom(f) =>
      var r := f(c.Value());
      c.name, c.title, c.width, c.height, c.url := r.name, r.title, r.width, r.height, r.url;
  }
}
