/**
 * `URLShortnerBuilder` of svc/urlshortnerbuilder.go: defaults, setters that
 * update the builder in place and return it, and `Build`, a chain of guard
 * checks in a fixed order.
 *
 * The stores and the metrics sink are Go interface values that `Build` only
 * tests against nil and passes on, so they are modelled as `object?`.
 * `isValidPathSegment`, which `Build` applies to the charset, is called by
 * svc/urlshortnerbuilder.go but not defined there; it is the parameter
 * `validSegment`.
 */
module Builder {
  import opened Wrappers
  import opened Errors
  import opened RandomGen

  const DefaultMinLength := 4
  const DefaultMaxLength := 7
  const DefaultCharset := "abcdefghijklmnopqrstuvwxyz0123456789"
  /** The longest short path `Build` accepts. */
  const MaxPathLength := 50

  const TargetURLStoreNil := "targetURLStore is nil"
  const ShortPathStoreNil := "shortPathStore is nil"
  const MetricsNil := "metrics is nil"
  const LengthNotPositive := "minLength or maxLength is less than or equal to 0"
  const LengthTooLarge := "minLength or maxLength is greater than 50"
  const MinAboveMax := "minLength is greater than maxLength"
  const InvalidCharset := "charset contains invalid characters"

  /**
   * The message of the first check `Build` fails, in the order it makes
   * them, or None when every check passes.
   */
  function BuildError(hasTargetURLStore: bool, hasShortPathStore: bool, hasMetrics: bool,
                      minLength: int, maxLength: int, charset: string,
                      validSegment: string -> bool): Option<string>
  {
    if !hasTargetURLStore then Some(TargetURLStoreNil)
    else if !hasShortPathStore then Some(ShortPathStoreNil)
    else if !hasMetrics then Some(MetricsNil)
    else if minLength <= 0 || maxLength <= 0 then Some(LengthNotPositive)
    else if minLength > MaxPathLength || maxLength > MaxPathLength then Some(LengthTooLarge)
    else if minLength > maxLength then Some(MinAboveMax)
    else if !validSegment(charset) then Some(InvalidCharset)
    else None
  }

  /**
   * Each message is reported exactly when its own check fails and every
   * earlier check passes; no message at all exactly when the configuration
   * has all collaborators, 1 <= min <= max <= 50 and a valid charset.
   */
  lemma BuildErrorOrder(hasTargetURLStore: bool, hasShortPathStore: bool, hasMetrics: bool,
                        minLength: int, maxLength: int, charset: string,
                        validSegment: string -> bool)
    ensures var r := BuildError(hasTargetURLStore, hasShortPathStore, hasMetrics, minLength, maxLength, charset, validSegment);
      var present := hasTargetURLStore && hasShortPathStore && hasMetrics;
      var positive := present && minLength > 0 && maxLength > 0;
      var bounded := positive && minLength <= MaxPathLength && maxLength <= MaxPathLength;
      && (r == Some(TargetURLStoreNil) <==> !hasTargetURLStore)
      && (r == Some(ShortPathStoreNil) <==> hasTargetURLStore && !hasShortPathStore)
      && (r == Some(MetricsNil) <==> hasTargetURLStore && hasShortPathStore && !hasMetrics)
      && (r == Some(LengthNotPositive) <==> present && (minLength <= 0 || maxLength <= 0))
      && (r == Some(LengthTooLarge) <==> positive && (minLength > MaxPathLength || maxLength > MaxPathLength))
      && (r == Some(MinAboveMax) <==> bounded && minLength > maxLength)
      && (r == Some(InvalidCharset) <==> bounded && minLength <= maxLength && !validSegment(charset))
      && (r == None <==> present && 1 <= minLength <= maxLength <= MaxPathLength && validSegment(charset))
  {
  }

  /** The `urlShortner` that `Build` returns. */
  class URLShortner {
    const randomStrGen: RandomStrGen
    const targetURLStore: object
    const shortPathStore: object
    const metrics: object

    constructor (randomStrGen: RandomStrGen, targetURLStore: object, shortPathStore: object, metrics: object)
      ensures this.randomStrGen == randomStrGen && this.targetURLStore == targetURLStore
      ensures this.shortPathStore == shortPathStore && this.metrics == metrics
    {
      this.randomStrGen := randomStrGen;
      this.targetURLStore := targetURLStore;
      this.shortPathStore := shortPathStore;
      this.metrics := metrics;
    }
  }

  class URLShortnerBuilder {
    var minLength: int
    var maxLength: int
    var charset: string
    var targetURLStore: object?
    var shortPathStore: object?
    var metrics: object?

    /** `NewURLShortnerBuilder`: lengths 4 and 7, charset a-z0-9, no collaborators. */
    constructor NewURLShortnerBuilder()
      ensures minLength == DefaultMinLength && maxLength == DefaultMaxLength && charset == DefaultCharset
      ensures targetURLStore == null && shortPathStore == null && metrics == null
    {
      minLength := DefaultMinLength;
      maxLength := DefaultMaxLength;
      charset := DefaultCharset;
      targetURLStore := null;
      shortPathStore := null;
      metrics := null;
    }

    method SetMinLength(minLength: int) returns (b: URLShortnerBuilder)
      modifies this
      ensures b == this && this.minLength == minLength
      ensures maxLength == old(maxLength) && charset == old(charset)
      ensures targetURLStore == old(targetURLStore) && shortPathStore == old(shortPathStore) && metrics == old(metrics)
    {
      this.minLength := minLength;
      b := this;
    }

    method SetMaxLength(maxLength: int) returns (b: URLShortnerBuilder)
      modifies this
      ensures b == this && this.maxLength == maxLength
      ensures minLength == old(minLength) && charset == old(charset)
      ensures targetURLStore == old(targetURLStore) && shortPathStore == old(shortPathStore) && metrics == old(metrics)
    {
      this.maxLength := maxLength;
      b := this;
    }

    method SetCharset(charset: string) returns (b: URLShortnerBuilder)
      modifies this
      ensures b == this && this.charset == charset
      ensures minLength == old(minLength) && maxLength == old(maxLength)
      ensures targetURLStore == old(targetURLStore) && shortPathStore == old(shortPathStore) && metrics == old(metrics)
    {
      this.charset := charset;
      b := this;
    }

    method SetTargetURLStore(store: object?) returns (b: URLShortnerBuilder)
      modifies this
      ensures b == this && targetURLStore == store
      ensures minLength == old(minLength) && maxLength == old(maxLength) && charset == old(charset)
      ensures shortPathStore == old(shortPathStore) && metrics == old(metrics)
    {
      targetURLStore := store;
      b := this;
    }

    method SetShortPathStore(store: object?) returns (b: URLShortnerBuilder)
      modifies this
      ensures b == this && shortPathStore == store
      ensures minLength == old(minLength) && maxLength == old(maxLength) && charset == old(charset)
      ensures targetURLStore == old(targetURLStore) && metrics == old(metrics)
    {
      shortPathStore := store;
      b := this;
    }

    method SetMetrics(metrics: object?) returns (b: URLShortnerBuilder)
      modifies this
      ensures b == this && this.metrics == metrics
      ensures minLength == old(minLength) && maxLength == old(maxLength) && charset == old(charset)
      ensures targetURLStore == old(targetURLStore) && shortPathStore == old(shortPathStore)
    {
      this.metrics := metrics;
      b := this;
    }

    /** The message `Build` would fail with in the current state, if any. */
    function Problem(validSegment: string -> bool): Option<string>
      reads this
    {
      BuildError(targetURLStore != null, shortPathStore != null, metrics != null,
                 minLength, maxLength, charset, validSegment)
    }

    /**
     * `Build`: the first failed check as `errors.New(message)` with a nil
     * shortner; otherwise a new shortner whose generator has this builder's
     * lengths and charset and whose collaborators are this builder's. The
     * clock-seeded source of `NewRandomStrGen` is the parameter `rand`.
     */
    method Build(validSegment: string -> bool, rand: Rand) returns (shortner: URLShortner?, err: Option<GoError>)
      ensures err == (match Problem(validSegment) case None => None case Some(m) => Some(Plain(m)))
      ensures shortner == null <==> err.Some?
      ensures shortner != null ==>
        && fresh(shortner) && fresh(shortner.randomStrGen)
        && 1 <= minLength <= maxLength <= MaxPathLength && validSegment(charset)
        && shortner.randomStrGen.minLength == minLength && shortner.randomStrGen.maxLength == maxLength
        && shortner.randomStrGen.charset == charset && shortner.randomStrGen.rand == rand
        && shortner.targetURLStore == targetURLStore && shortner.shortPathStore == shortPathStore
        && shortner.metrics == metrics
    {
      if targetURLStore == null {
        return null, Some(Plain(TargetURLStoreNil));
      }
      if shortPathStore == null {
        return null, Some(Plain(ShortPathStoreNil));
      }
      if metrics == null {
        return null, Some(Plain(MetricsNil));
      }
      if minLength <= 0 || maxLength <= 0 {
        return null, Some(Plain(LengthNotPositive));
      }
      if minLength > MaxPathLength || maxLength > MaxPathLength {
        return null, Some(Plain(LengthTooLarge));
      }
      if minLength > maxLength {
        return null, Some(Plain(MinAboveMax));
      }
      if !validSegment(charset) {
        return null, Some(Plain(InvalidCharset));
      }
      var randomStrGen := new RandomStrGen.NewRandomStrGen(minLength, maxLength, charset, rand);
      shortner := new URLShortner(randomStrGen, targetURLStore, shortPathStore, metrics);
      err := None;
    }
  }

  /**
   * Cases of svc/urlshortnerbuilder_test.go, for any `isValidPathSegment`
   * that accepts the default charset and rejects "abc$".
   */
  method BuilderTest(validSegment: string -> bool, rand: Rand)
      returns (valid: Option<GoError>, noTarget: Option<GoError>, notPositive: Option<GoError>,
               tooLong: Option<GoError>, badCharset: Option<GoError>, minAboveMax: Option<GoError>)
    requires validSegment(DefaultCharset) && !validSegment("abc$")
    ensures valid == None
    ensures noTarget == Some(Plain("targetURLStore is nil"))
    ensures notPositive == Some(Plain("minLength or maxLength is less than or equal to 0"))
    ensures tooLong == Some(Plain("minLength or maxLength is greater than 50"))
    ensures badCharset == Some(Plain("charset contains invalid characters"))
    ensures minAboveMax == Some(Plain("minLength is greater than maxLength"))
  {
    var targetURLStore := new object;
    var shortPathStore := new object;
    var metrics := new object;
    var shortner: URLShortner?;

    var b := new URLShortnerBuilder.NewURLShortnerBuilder();
    b := b.SetTargetURLStore(targetURLStore);
    b := b.SetShortPathStore(shortPathStore);
    b := b.SetMetrics(metrics);
    shortner, valid := b.Build(validSegment, rand);

    b := new URLShortnerBuilder.NewURLShortnerBuilder();
    b := b.SetShortPathStore(shortPathStore);
    b := b.SetMetrics(metrics);
    shortner, noTarget := b.Build(validSegment, rand);

    b := new URLShortnerBuilder.NewURLShortnerBuilder();
    b := b.SetTargetURLStore(targetURLStore);
    b := b.SetShortPathStore(shortPathStore);
    b := b.SetMetrics(metrics);
    b := b.SetMinLength(0);
    b := b.SetMaxLength(0);
    shortner, notPositive := b.Build(validSegment, rand);

    b := new URLShortnerBuilder.NewURLShortnerBuilder();
    b := b.SetTargetURLStore(targetURLStore);
    b := b.SetShortPathStore(shortPathStore);
    b := b.SetMetrics(metrics);
    b := b.SetMinLength(51);
    shortner, tooLong := b.Build(validSegment, rand);

    b := new URLShortnerBuilder.NewURLShortnerBuilder();
    b := b.SetTargetURLStore(targetURLStore);
    b := b.SetShortPathStore(shortPathStore);
    b := b.SetMetrics(metrics);
    b := b.SetCharset("abc$");
    shortner, badCharset := b.Build(validSegment, rand);

    b := new URLShortnerBuilder.NewURLShortnerBuilder();
    b := b.SetTargetURLStore(targetURLStore);
    b := b.SetShortPathStore(shortPathStore);
    b := b.SetMetrics(metrics);
    b := b.SetMinLength(10);
    b := b.SetMaxLength(5);
    shortner, minAboveMax := b.Build(validSegment, rand);
  }
}
