/**
 The generative-content service as the application sees it: each of its three
 calls (detect a trend, write a post, render an image) either resolves with a
 string or rejects. Which of the two happens, and with what text, is an input
 to the model rather than something it computes.
 */
module Service {

  /** The settled promise of one service call. */
  datatype Reply = Ok(value: string) | Failed

  /** The calls the application can issue, with the argument it passes. */
  datatype Call = DetectTrend | GeneratePost(trend: string) | GenerateImage(post: string)
}
