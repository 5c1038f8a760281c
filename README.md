# Angle classifier decision logic

A Dafny model of the text-line angle classifier of the OCR library
(`AngleNet.cpp`). Before recognition, every cropped text-line image is
classified as upright (class 0) or rotated by 180 degrees (class 1). The
model covers the two parts of that component that make decisions:

- **The score decoder** (`scoreToAngle`). It scans the network's output
  vector and returns the index and value of its maximum. The running maximum
  is seeded from entry 0 and is replaced only by a strictly greater entry, so
  on a tie the earliest class wins. An empty vector yields the sentinel
  index 0 with score -1000.
- **The batch resolver** (`AngleNet::getAngles`). It builds one `Angle`
  record per image, in input order. With `doAngle` off, every record is
  index -1, score 0. With `doAngle` on, every record is that image's decoded
  classification together with the time measured for it. With `mostAngle`
  also on, the indices are summed. Every record's index is then overwritten
  with 0 when the sum is below half the batch size, and with 1 otherwise. The
  scores and times are kept.

Everything is in one module, `AngleNet` (file `AngleNet.dfy`).

- `ScoreToAngle` is the decoder's loop, proved against `IsFirstMax` (the
  first position of a maximum). It is also proved equal to `Decode`, whose
  reference definition `FirstMax` finds the first maximum recursively from
  the front.
- `GetAngles` fills an array in three loops, as the source fills its
  preallocated vector. It is proved against `ClassifyAll` (the per-image
  classifications), `MostAngleIndex` (the vote) and `WithIndex` (the
  override).
- Lemmas state what the vote means. For binary labels it is a strict-majority
  vote for 0 with ties going to 1. A second vote on the overridden batch
  picks the same label.

The neural network is a function parameter `infer: Img -> seq<real>`. It
stands for resizing the image to the model's input size, normalising it and
running inference. The wall clock is a function parameter
`elapsed: nat -> real`, the time measured for the i-th image. Scores are
`real`.

An empty output vector is not rejected: the code returns the sentinel
`{0, -1000}` (`AngleNet.cpp:28-29`), and so does `ScoreToAngle` for every
`w <= 0`.

## Model

| member | source | states |
|---|---|---|
| `AngleNet.ScoreToAngle` | OcrLibrary/src/main/cpp/src/AngleNet.cpp:27-38 | For `w > 0`: the index lies in `[0, w)` and the score is the entry at that index. Every one of the first `w` entries is `<=` the score. Every entry before the index is strictly below it, so the first maximum wins. For `w <= 0`: the sentinel index 0, score -1000. The result equals `Decode` of the first `w` entries. |
| `AngleNet.FirstMax` | OcrLibrary/src/main/cpp/src/AngleNet.cpp:30-36 | The recursive reference definition returns the first position of a maximum (`IsFirstMax`). |
| `AngleNet.FirstMaxUnique` | OcrLibrary/src/main/cpp/src/AngleNet.cpp:30-35 | At most one index is the first maximum, so every decoder that meets the property gives the same index. |
| `AngleNet.Decode` | OcrLibrary/src/main/cpp/src/AngleNet.cpp:27-37 | A non-empty vector decodes to its first maximum and the score there. An empty vector decodes to the sentinel. The decoder records time 0. |
| `AngleNet.GetAngle` | OcrLibrary/src/main/cpp/src/AngleNet.cpp:41-57 | One image's classification is the first maximum of the network output for it, with the score at that position. |
| `AngleNet.MostAngleIndex` | OcrLibrary/src/main/cpp/src/AngleNet.cpp:83-91 | The consensus is 0 or 1. It is 0 exactly when twice the index sum is below the batch size, so an exact tie goes to 1. |
| `AngleNet.WithIndex` | OcrLibrary/src/main/cpp/src/AngleNet.cpp:93-97 | The override keeps the batch length. Every index becomes the consensus. Every score and time stays as it was. |
| `AngleNet.GetAngles` | OcrLibrary/src/main/cpp/src/AngleNet.cpp:60-101 | Output length equals the number of images. With `doAngle` off, every record is index -1, score 0, whatever `mostAngle` is. With only `doAngle`, record i is image i's classification with its measured time. With both flags, record i is that classification with its index replaced by the batch consensus. |
| `AngleNet.SumCountsOnes` | OcrLibrary/src/main/cpp/src/AngleNet.cpp:83-84 | For binary labels, the index sum is the number of images labelled 1. The zeros and ones together make up the batch. |
| `AngleNet.ConsensusIsMajority` | OcrLibrary/src/main/cpp/src/AngleNet.cpp:84-91 | For binary labels, the consensus is 0 exactly when strictly more images were labelled 0 than 1. A tied vote gives 1. |
| `AngleNet.SumWithIndex` | OcrLibrary/src/main/cpp/src/AngleNet.cpp:93-97 | After the override to label m, the index sum is m times the batch size. |
| `AngleNet.OverrideIsStable` | OcrLibrary/src/main/cpp/src/AngleNet.cpp:82-97 | Voting again after the override picks the same label, and overriding again changes nothing. |
| `AngleNet.TwoClassBatchIsBinary` | OcrLibrary/src/main/cpp/src/AngleNet.cpp:67-91 | When the network outputs at most two scores per image, every per-image label is 0 or 1. The batch override is then the majority vote above. |
| `AngleNet.DecodeTieExample` | OcrLibrary/src/main/cpp/src/AngleNet.cpp:32 | The vector `[0.5, 0.9, 0.9]` decodes to index 1, the first of the two equal maxima. |
| `AngleNet.VoteExamples` | OcrLibrary/src/main/cpp/src/AngleNet.cpp:85-91 | Two images with labels {0, 0} give 0. Labels {1, 1} give 1. The tie {0, 1} gives 1. |

## Left out

- `initModel` and the destructor (`AngleNet.cpp:6-24`): they load and release the two model files through the inference engine and the platform's asset manager. That is foreign I/O, so the loaded network is simply the parameter `infer`.
- `setNumThread` / `numThread` (`AngleNet.cpp:10-13`): the thread count only sets parallelism inside the inference engine. It has no effect on any result.
- The body of `getAngle` before decoding (`AngleNet.cpp:43-53`): pixel conversion, mean/normalisation and the engine's extractor are floating-point calls into a library that is not part of this model. Together with `adjustTargetImg` they form the uninterpreted parameter `infer`.
- `getCurrentTime`, `Logger` and `LOGE`: the clock is the parameter `elapsed`, and logging has no effect on results.
- `getAngleIndexes` (in OcrUtils, not part of this model): assumed to list the records' indices in order, as its name and use say.
- IEEE floating point: scores are `real`, so NaN and rounding are not modelled. The index sum and the half batch size are compared exactly. The source's `double` sum and its single-precision `size / 2.0f` are exact for batches below 2^24 images.
- Running the resolver twice with `mostAngle` off gives the same indices and scores. In the model this holds by construction: the result is determined by `infer`, `elapsed` and the inputs, so it needs no lemma.
