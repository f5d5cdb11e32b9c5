/**
 * Stage 4 (Level4Pitch.tsx): a ten-second voice pitch. While recording, the
 * loudest average level heard so far is kept as the peak; when the countdown
 * runs out the peak is normalised to a score of at most 100, a score under 40
 * is raised to 50, and the record gains five times the score. Without a
 * microphone the countdown runs on a simulated path that supplies 85.
 */
module Pitch {
  import opened GameTypes

  datatype Status = Idle | Recording | Processing | Done

  const Countdown: nat := 10
  /** The level that normalises to a full score. */
  const FullScaleLevel: real := 150.0
  const MaxScore: int := 100
  const SimulatedScore: int := 85
  const MercyThreshold: int := 40
  const MercyScore: int := 50
  const ScoreMultiplier: int := 5
  const PitchGold: int := 200

  /** Position of a status in idle, recording, processing, done. */
  function StatusOrder(s: Status): nat
  {
    match s
    case Idle => 0
    case Recording => 1
    case Processing => 2
    case Done => 3
  }

  /** The peak as a percentage of the full-scale level, rounded down and capped at 100. */
  function Normalised(peak: real): (r: int)
    ensures r <= MaxScore
    ensures peak >= 0.0 ==> r >= 0
    ensures r < MaxScore ==> r as real <= peak * 100.0 / FullScaleLevel < (r + 1) as real
    ensures r == MaxScore <==> peak * 100.0 / FullScaleLevel >= MaxScore as real
  {
    var pct := (peak * 100.0 / FullScaleLevel).Floor;
    if pct < MaxScore then pct else MaxScore
  }

  /** A louder peak never normalises to less. */
  lemma NormalisedMonotone(a: real, b: real)
    requires a <= b
    ensures Normalised(a) <= Normalised(b)
  {
  }

  /**
   * The final score: the simulated 85 or the normalised peak, with anything
   * under 40 replaced by 50.
   */
  function FinalScore(simulated: bool, peak: real): (r: int)
    ensures MercyThreshold <= r <= MaxScore
    ensures simulated ==> r == SimulatedScore
    ensures !simulated && Normalised(peak) < MercyThreshold ==> r == MercyScore
    ensures !simulated && Normalised(peak) >= MercyThreshold ==> r == Normalised(peak)
  {
    var score := if simulated then SimulatedScore else Normalised(peak);
    if score < MercyThreshold then MercyScore else score
  }

  /** The mercy floor makes the score drop by ten when the peak crosses the threshold. */
  lemma MercyFloorNotMonotone()
    ensures FinalScore(false, 58.5) == MercyScore
    ensures FinalScore(false, 60.0) == MercyThreshold
  {
  }

  /**
   * As written, the microphone path scores the peak captured when recording
   * began, which is the initial 0: the frame loop stops at once on the
   * captured "not recording", and the countdown's callback reads the captured
   * peak. So every microphone pitch scores 50, even one heard at full scale,
   * which the live peak would score 100.
   */
  lemma CapturedPeakScore(peakHeard: real)
    requires peakHeard >= FullScaleLevel
    ensures FinalScore(false, 0.0) == MercyScore
    ensures FinalScore(false, peakHeard) == MaxScore
  {
  }

  /**
   * The record handed on: the quiz score gains five times the final score,
   * which is also kept as the voice score, and the gold gains 200.
   */
  function PitchRecord(s: PlayerStats, score: int): (r: PlayerStats)
    ensures r.quizScore == s.quizScore + ScoreMultiplier * score
    ensures r.voiceScore == Some(score) && r.gold == s.gold + PitchGold
    ensures r.(quizScore := s.quizScore, voiceScore := s.voiceScore, gold := s.gold) == s
  {
    s.(quizScore := s.quizScore + score * ScoreMultiplier, voiceScore := Some(score), gold := s.gold + PitchGold)
  }

  /** Whatever the peak, the stage adds between 200 and 500 to the quiz score. */
  lemma PitchGainBounds(s: PlayerStats, simulated: bool, peak: real)
    ensures 200 <= PitchRecord(s, FinalScore(simulated, peak)).quizScore - s.quizScore <= 500
  {
  }

  /** The stage's state cells. */
  class PitchStage {
    const currentStats: PlayerStats
    var status: Status
    var isRecording: bool
    var timeLeft: int
    /** The countdown's own counter `t`. */
    var remaining: int
    /** The running peak of the average level (the source's `volumeScore`). */
    var peak: real
    /** Whether the simulated countdown is the one running. */
    var simulated: bool
    /** The score computed at the end of the countdown, delivered after the processing delay. */
    var finalScore: int
    /** Ticks of the running countdown so far. */
    ghost var ticks: nat

    ghost predicate Valid()
      reads this
    {
      && (status == Idle ==> ticks == 0 && !isRecording)
      && (status == Recording ==> isRecording && 0 < remaining <= Countdown && ticks + remaining == Countdown)
      && (StatusOrder(status) >= 2 ==> !isRecording && remaining == 0 && ticks == Countdown
                                       && finalScore == FinalScore(simulated, peak))
    }

    constructor (currentStats: PlayerStats)
      ensures Valid()
      ensures this.currentStats == currentStats
      ensures status == Idle && !isRecording && timeLeft == Countdown && peak == 0.0
    {
      this.currentStats := currentStats;
      status := Idle;
      isRecording := false;
      timeLeft := Countdown;
      remaining := Countdown;
      peak := 0.0;
      simulated := false;
      finalScore := 0;
      ticks := 0;
    }

    /**
     * The record button: with the microphone granted the real countdown
     * starts, otherwise the simulated one. Either way recording begins.
     */
    method StartRecording(microphoneGranted: bool)
      requires Valid() && status == Idle
      modifies this
      ensures Valid()
      ensures status == Recording && isRecording
      ensures remaining == Countdown && ticks == 0
      ensures simulated == !microphoneGranted
      ensures peak == old(peak) && timeLeft == old(timeLeft) && finalScore == old(finalScore)
    {
      isRecording := true;
      status := Recording;
      remaining := Countdown;
      simulated := !microphoneGranted;
    }

    /**
     * One analyser frame while recording (the frame loop is cancelled when
     * the countdown ends): the peak becomes the larger of itself and the
     * frame's average level.
     */
    method Sample(level: real)
      requires Valid() && status == Recording
      modifies this
      ensures Valid()
      ensures peak >= old(peak) && peak >= level
      ensures peak == old(peak) || peak == level
      ensures status == old(status) && isRecording == old(isRecording) && simulated == old(simulated)
      ensures remaining == old(remaining) && timeLeft == old(timeLeft) && ticks == old(ticks)
      ensures finalScore == old(finalScore)
    {
      peak := if level > peak then level else peak;
    }

    /** One second of the running countdown; the tenth ends the recording. */
    method Tick() returns (finished: bool)
      requires Valid() && status == Recording
      modifies this
      ensures Valid()
      ensures ticks == old(ticks) + 1
      ensures remaining == old(remaining) - 1 && timeLeft == remaining
      ensures finished <==> ticks == Countdown
      ensures finished ==> status == Processing && !isRecording && finalScore == FinalScore(simulated, peak)
      ensures !finished ==> status == Recording && isRecording && finalScore == old(finalScore)
      ensures peak == old(peak) && simulated == old(simulated)
    {
      remaining := remaining - 1;
      timeLeft := remaining;
      ticks := ticks + 1;
      finished := remaining <= 0;
      if finished {
        isRecording := false;
        status := Processing;
        finalScore := FinalScore(simulated, peak);
      }
    }

    /**
     * The end of the processing delay: the stage is done and hands on the
     * record of the score computed from the peak when the countdown ended.
     */
    method Settle() returns (done: Completion)
      requires Valid() && status == Processing
      modifies this
      ensures Valid()
      ensures status == Done && !isRecording
      ensures finalScore == old(finalScore) && peak == old(peak) && simulated == old(simulated)
      ensures remaining == old(remaining) && timeLeft == old(timeLeft) && ticks == old(ticks)
      ensures done == Completion(PitchRecord(currentStats, FinalScore(simulated, peak)), PitchLog(FinalScore(simulated, peak)))
      ensures 200 <= done.stats.quizScore - currentStats.quizScore <= 500
    {
      status := Done;
      done := Completion(PitchRecord(currentStats, finalScore), PitchLog(finalScore));
    }
  }

  /**
   * A whole microphone pitch heard at full scale: recording starts, one frame
   * reaches the full-scale level, the countdown runs out and the stage
   * settles. The live peak gives the top score, so the record gains 500.
   */
  method FullScalePitch(stats: PlayerStats) returns (done: Completion)
    ensures done.log == PitchLog(MaxScore)
    ensures done.stats.voiceScore == Some(MaxScore)
    ensures done.stats.quizScore == stats.quizScore + ScoreMultiplier * MaxScore
  {
    var stage := new PitchStage(stats);
    stage.StartRecording(true);
    stage.Sample(FullScaleLevel);
    var finished := false;
    while !finished
      invariant stage.Valid() && stage.currentStats == stats
      invariant !stage.simulated && stage.peak == FullScaleLevel
      invariant finished <==> stage.status == Processing
      invariant !finished ==> stage.status == Recording
      decreases stage.remaining
    {
      finished := stage.Tick();
    }
    done := stage.Settle();
  }
}
