/** Sorting a raw proximity reading into four tiers by three boundary-inclusive thresholds. */
module Proximity {

  datatype Tier = VeryClose | Close | Far | NoDetection

  const DefaultVeryCloseThreshold := 200
  const DefaultCloseThreshold := 100
  const DefaultFarThreshold := 50

  /** How near a tier is: 3 for very close down to 0 for no detection. */
  function Nearness(t: Tier): (n: int)
    ensures 0 <= n <= 3
  {
    match t
    case VeryClose => 3
    case Close => 2
    case Far => 1
    case NoDetection => 0
  }

  /** The if/elif chain of the sensor: the first threshold the reading reaches picks the tier. */
  function Classify(v: int, veryCloseThreshold: int, closeThreshold: int, farThreshold: int): (t: Tier)
    ensures t == VeryClose <==> v >= veryCloseThreshold
    ensures t == Close <==> v < veryCloseThreshold && v >= closeThreshold
    ensures t == Far <==> v < veryCloseThreshold && v < closeThreshold && v >= farThreshold
    ensures t == NoDetection <==> v < veryCloseThreshold && v < closeThreshold && v < farThreshold
  {
    if v >= veryCloseThreshold then VeryClose
    else if v >= closeThreshold then Close
    else if v >= farThreshold then Far
    else NoDetection
  }

  /** Classification with the sensor's default thresholds 200, 100 and 50. */
  function DefaultClassify(v: int): Tier {
    Classify(v, DefaultVeryCloseThreshold, DefaultCloseThreshold, DefaultFarThreshold)
  }

  /** A larger reading never yields a farther tier, whatever the thresholds. */
  lemma ClassifyMonotone(v: int, w: int, veryCloseThreshold: int, closeThreshold: int, farThreshold: int)
    requires v <= w
    ensures Nearness(Classify(v, veryCloseThreshold, closeThreshold, farThreshold))
         <= Nearness(Classify(w, veryCloseThreshold, closeThreshold, farThreshold))
  {
  }

  /** A reading equal to a threshold gets the nearer tier of the two it separates. */
  lemma ThresholdsInclusive(veryCloseThreshold: int, closeThreshold: int, farThreshold: int)
    requires farThreshold < closeThreshold < veryCloseThreshold
    ensures Classify(veryCloseThreshold, veryCloseThreshold, closeThreshold, farThreshold) == VeryClose
    ensures Classify(veryCloseThreshold - 1, veryCloseThreshold, closeThreshold, farThreshold) == Close
    ensures Classify(closeThreshold, veryCloseThreshold, closeThreshold, farThreshold) == Close
    ensures Classify(closeThreshold - 1, veryCloseThreshold, closeThreshold, farThreshold) == Far
    ensures Classify(farThreshold, veryCloseThreshold, closeThreshold, farThreshold) == Far
    ensures Classify(farThreshold - 1, veryCloseThreshold, closeThreshold, farThreshold) == NoDetection
  {
  }

  /** The four bands of the default thresholds. */
  lemma DefaultBands(v: int)
    ensures DefaultClassify(v) == VeryClose <==> 200 <= v
    ensures DefaultClassify(v) == Close <==> 100 <= v < 200
    ensures DefaultClassify(v) == Far <==> 50 <= v < 100
    ensures DefaultClassify(v) == NoDetection <==> v < 50
  {
  }
}
