/**
 * The cost estimate, `calculateCost(imageCount, tokenCount)`. Both
 * src/App.js and src/utils/openai.js define it with the same two constants,
 * so it is defined once here. The source computes in IEEE doubles; this is
 * the idealised function over the reals.
 */
module Cost {

  /** Price of one image input. */
  const CostPerImage: real := 0.00765

  /** Price of one token. */
  const CostPerToken: real := 0.00003

  function CalculateCost(imageCount: real, tokenCount: real): (cost: real)
    ensures 0.0 <= imageCount && 0.0 <= tokenCount ==> 0.0 <= cost
  {
    imageCount * CostPerImage + tokenCount * CostPerToken
  }

  /** Nothing used costs nothing. */
  lemma CostOfNothing()
    ensures CalculateCost(0.0, 0.0) == 0.0
  {
  }

  /** More images or more tokens never cost less. */
  lemma CostMonotone(images: real, tokens: real, images': real, tokens': real)
    requires images <= images' && tokens <= tokens'
    ensures CalculateCost(images, tokens) <= CalculateCost(images', tokens')
  {
  }

  /** Estimates of two parts of a run add up to the estimate of the whole. */
  lemma CostAdditive(images: real, tokens: real, images': real, tokens': real)
    ensures CalculateCost(images + images', tokens + tokens')
         == CalculateCost(images, tokens) + CalculateCost(images', tokens')
  {
  }

  /** Ten images and four thousand tokens come to 0.0765 + 0.12. */
  lemma CostExample()
    ensures CalculateCost(10.0, 4000.0) == 0.1965
  {
  }
}
