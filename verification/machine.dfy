/** The platform resolver: `platform_query(windows=, darwin=, linux64=, linux32=)`
    returns the caller's value for the platform the program runs on. The local
    machine is not inspected here; it is a `Platform` argument. */
module Machine {

  /** The four platform keys `platform_query` distinguishes. */
  datatype Platform = Windows | Darwin | Linux64 | Linux32

  /** One value per platform key. */
  datatype PerPlatform<T> = PerPlatform(windows: T, darwin: T, linux64: T, linux32: T)

  /** The value keyed to `platform`: exactly one of the four is chosen. */
  function PlatformQuery<T>(platform: Platform, values: PerPlatform<T>): (r: T)
    ensures platform == Windows ==> r == values.windows
    ensures platform == Darwin ==> r == values.darwin
    ensures platform == Linux64 ==> r == values.linux64
    ensures platform == Linux32 ==> r == values.linux32
  {
    match platform
    case Windows => values.windows
    case Darwin => values.darwin
    case Linux64 => values.linux64
    case Linux32 => values.linux32
  }

  /** Each platform gets the value given for its own keyword: querying the
      values of any per-platform function `f` yields `f` at that platform. */
  lemma PlatformQueryByKeyword<T>(f: Platform -> T, p: Platform)
    ensures PlatformQuery(p, PerPlatform(f(Windows), f(Darwin), f(Linux64), f(Linux32))) == f(p)
  {
  }

  /** When the four values are pairwise different, the chosen value identifies
      the platform: no two platforms share a branch. */
  lemma PlatformQueryDistinguishes<T>(values: PerPlatform<T>, p: Platform, q: Platform)
    requires values.windows != values.darwin && values.windows != values.linux64
    requires values.windows != values.linux32 && values.darwin != values.linux64
    requires values.darwin != values.linux32 && values.linux64 != values.linux32
    requires PlatformQuery(p, values) == PlatformQuery(q, values)
    ensures p == q
  {
  }
}
