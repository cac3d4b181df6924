/** The values every other module shares: shards, wire text, changelog records and errors. */
module Types {

  datatype Option<+T> = None | Some(value: T)

  /** The outcome of an operation that may raise. */
  datatype Result<+T> = Ok(value: T) | Err(error: Error)

  /** What the code raises.  `Sqlite` stands for any sqlite3.Error that is not "busy";
      `Cancelled` for a BaseException that no handler of the library maps. */
  datatype Error =
    | ValueError | ConfigError | TopicNotFoundError | LifecycleError
    | ChangelogProduceError | RehydrateError | StorageError
    | KafkaError | Busy | Sqlite | Cancelled

  /** A source topic partition. */
  datatype TP = TP(topic: string, partition: nat)

  /** A Python str is a sequence of code points, lone surrogates included. */
  type CodePoint = c: int | 0 <= c < 0x11_0000
  type Text = seq<CodePoint>
  type Byte = b: int | 0 <= b < 0x100
  type Bytes = seq<Byte>

  type Header = (string, Bytes)

  /** One record of a changelog, as a fetch hands it over. */
  datatype Record = Record(offset: nat, key: Option<Bytes>, value: Option<Bytes>, headers: seq<Header>)

  /** What replay makes of a record: skip it, raise, or insert a row. */
  datatype Verdict =
    | Foreign
    | Poison(error: Error)
    | Ours(id: Text, key: Text, payload: Text)

  type Decoder = Record -> Verdict

  type Positive = n: nat | n > 0 witness 1

  function Max(a: int, b: int): int {
    if a < b then b else a
  }

  function Last<T>(s: seq<T>): T
    requires s != []
  {
    s[|s| - 1]
  }

  function DropLast<T>(s: seq<T>): seq<T>
    requires s != []
  {
    s[..|s| - 1]
  }
}
