/** The retraining scheduler: retrains the forecaster on everything the
    sample store holds, when there is enough of it, and does so
    periodically from a background loop. The clock is a parameter: times
    are whole seconds since an arbitrary epoch. */
module Training {
  import opened CArith
  import opened Forecaster
  import opened SampleStore

  const SecondsPerHour: int := 3600

  /** The scheduler's configuration, with the source's defaults. */
  datatype TrainingScheduleConfig = TrainingScheduleConfig(
    retrainingIntervalHours: int,
    minDataPointsForTraining: int,
    autoRetrain: bool,
    verboseLogging: bool)

  const DefaultConfig: TrainingScheduleConfig := TrainingScheduleConfig(24, 168, true, true)

  /** One call of the training callback: success and the number of
      points. */
  datatype Notification = Notification(success: bool, dataPoints: nat)

  /** `count >= static_cast<size_t>(minimum)`: a negative minimum converts to
      a huge unsigned value that no count reaches. */
  predicate Sufficient(count: nat, minimum: int) {
    minimum >= 0 && count >= minimum
  }

  /** Whole hours elapsed, truncated toward zero as duration_cast does. */
  function HoursBetween(from: int, to: int): (h: int)
    ensures to >= from ==> h * SecondsPerHour <= to - from < (h + 1) * SecondsPerHour
    ensures to < from ==> h <= 0
  {
    CDiv(to - from, SecondsPerHour)
  }

  /** The loop retrains only once a whole interval has elapsed: at least
      `interval` hours of seconds, and never before `interval` hours. */
  lemma DueMeansIntervalElapsed(last: int, now: int, interval: int)
    requires interval > 0
    ensures HoursBetween(last, now) >= interval <==> now - last >= interval * SecondsPerHour
  {
    if now >= last {
      var h := HoursBetween(last, now);
      if h >= interval {
        assert h * SecondsPerHour >= interval * SecondsPerHour;
      } else {
        assert (h + 1) * SecondsPerHour <= interval * SecondsPerHour;
      }
    }
  }

  class MLTrainingScheduler {
    const predictor: MLPredictor
    const collector: HistoricalDataCollector
    const config: TrainingScheduleConfig
    var autoTrainingActive: bool
    var lastTrainingTime: int
    var callbackSet: bool
    /** The calls made to the callback so far, oldest first. */
    var notifications: seq<Notification>

    /** A new scheduler: inactive, with the last training stamped now, so
        that the loop does not retrain straight away. */
    constructor (predictor: MLPredictor, collector: HistoricalDataCollector, config: TrainingScheduleConfig, now: int)
      ensures this.predictor == predictor && this.collector == collector && this.config == config
      ensures !autoTrainingActive && lastTrainingTime == now
      ensures !callbackSet && notifications == []
    {
      this.predictor := predictor;
      this.collector := collector;
      this.config := config;
      autoTrainingActive := false;
      lastTrainingTime := now;
      callbackSet := false;
      notifications := [];
    }

    /** startAutoTraining: activates the loop unless it is active already
        or automatic retraining is disabled. */
    method StartAutoTraining()
      modifies this
      ensures autoTrainingActive == (old(autoTrainingActive) || config.autoRetrain)
      ensures lastTrainingTime == old(lastTrainingTime) && notifications == old(notifications)
      ensures callbackSet == old(callbackSet)
    {
      if autoTrainingActive {
        return;
      }
      if !config.autoRetrain {
        return;
      }
      autoTrainingActive := true;
    }

    /** stopAutoTraining: deactivates the loop; nothing happens when it is
        not active. */
    method StopAutoTraining()
      modifies this
      ensures !autoTrainingActive
      ensures lastTrainingTime == old(lastTrainingTime) && notifications == old(notifications)
      ensures callbackSet == old(callbackSet)
    {
      if !autoTrainingActive {
        return;
      }
      autoTrainingActive := false;
    }

    method SetTrainingCallback()
      modifies this
      ensures callbackSet
      ensures autoTrainingActive == old(autoTrainingActive) && lastTrainingTime == old(lastTrainingTime)
      ensures notifications == old(notifications)
    {
      callbackSet := true;
    }

    method HasSufficientData() returns (r: bool)
      ensures r <==> Sufficient(|collector.points|, config.minDataPointsForTraining)
    {
      var count := collector.GetDataPointCount();
      // the minimum is converted to an unsigned size before comparing
      r := config.minDataPointsForTraining >= 0 && count >= config.minDataPointsForTraining;
    }

    /** getTimeUntilNextTraining: seconds until one interval after the
        last training; negative once that moment has passed. */
    function TimeUntilNextTraining(now: int): (r: int)
      reads this
      ensures r + now == lastTrainingTime + config.retrainingIntervalHours * SecondsPerHour
    {
      lastTrainingTime + config.retrainingIntervalHours * SecondsPerHour - now
    }

    /** The callback call appended by a training attempt, if a callback is
        set. */
    function Notify(success: bool, count: nat): seq<Notification>
      reads this
    {
      if callbackSet then [Notification(success, count)] else []
    }

    /** performTraining: with too few points, fails, reports the count and
        leaves the forecaster and the training time alone; otherwise trains
        the forecaster on every stored point, stamps the time and reports
        success with the number of points. */
    method PerformTraining(now: int) returns (success: bool)
      modifies this, predictor
      ensures success <==> Sufficient(|collector.points|, config.minDataPointsForTraining)
      ensures !success ==>
                && predictor.trained == old(predictor.trained)
                && predictor.hourlyStats == old(predictor.hourlyStats)
                && predictor.historicalData == old(predictor.historicalData)
                && lastTrainingTime == old(lastTrainingTime)
                && notifications == old(notifications) + Notify(false, |collector.points|)
      ensures success ==>
                && predictor.trained
                && predictor.historicalData == collector.points
                && predictor.hourlyStats == Retrain(old(predictor.hourlyStats), collector.points)
                && lastTrainingTime == now
                && notifications == old(notifications) + Notify(true, |collector.points|)
      ensures autoTrainingActive == old(autoTrainingActive) && callbackSet == old(callbackSet)
    {
      var sufficient := HasSufficientData();
      if !sufficient {
        var count := collector.GetDataPointCount();
        if callbackSet {
          notifications := notifications + [Notification(false, count)];
        }
        return false;
      }
      var historicalData := collector.GetAllData();
      predictor.Train(historicalData);
      lastTrainingTime := now;
      if callbackSet {
        notifications := notifications + [Notification(true, |historicalData|)];
      }
      return true;
    }

    /** triggerRetraining: exactly performTraining. */
    method TriggerRetraining(now: int) returns (success: bool)
      modifies this, predictor
      ensures success <==> Sufficient(|collector.points|, config.minDataPointsForTraining)
      ensures !success ==>
                && predictor.trained == old(predictor.trained)
                && predictor.hourlyStats == old(predictor.hourlyStats)
                && predictor.historicalData == old(predictor.historicalData)
                && lastTrainingTime == old(lastTrainingTime)
                && notifications == old(notifications) + Notify(false, |collector.points|)
      ensures success ==>
                && predictor.trained
                && predictor.historicalData == collector.points
                && predictor.hourlyStats == Retrain(old(predictor.hourlyStats), collector.points)
                && lastTrainingTime == now
                && notifications == old(notifications) + Notify(true, |collector.points|)
      ensures autoTrainingActive == old(autoTrainingActive) && callbackSet == old(callbackSet)
    {
      success := PerformTraining(now);
    }

    /** True when an iteration of the loop at time `now` retrains. */
    predicate Due(now: int)
      reads this
    {
      autoTrainingActive && HoursBetween(lastTrainingTime, now) >= config.retrainingIntervalHours
    }

    /** One iteration of the training loop at time `now` (the hour of sleep
        that follows it is not modelled): when active and a whole interval
        has passed since the last training, attempt a training; otherwise
        change nothing. */
    method Tick(now: int)
      modifies this, predictor
      ensures !old(Due(now)) ==>
                && lastTrainingTime == old(lastTrainingTime) && notifications == old(notifications)
                && predictor.trained == old(predictor.trained)
                && predictor.hourlyStats == old(predictor.hourlyStats)
                && predictor.historicalData == old(predictor.historicalData)
      ensures old(Due(now)) && Sufficient(|collector.points|, config.minDataPointsForTraining) ==>
                && lastTrainingTime == now
                && predictor.trained
                && predictor.historicalData == collector.points
                && predictor.hourlyStats == Retrain(old(predictor.hourlyStats), collector.points)
                && notifications == old(notifications) + Notify(true, |collector.points|)
      ensures old(Due(now)) && !Sufficient(|collector.points|, config.minDataPointsForTraining) ==>
                && lastTrainingTime == old(lastTrainingTime)
                && predictor.trained == old(predictor.trained)
                && predictor.hourlyStats == old(predictor.hourlyStats)
                && predictor.historicalData == old(predictor.historicalData)
                && notifications == old(notifications) + Notify(false, |collector.points|)
      ensures autoTrainingActive == old(autoTrainingActive) && callbackSet == old(callbackSet)
    {
      if !autoTrainingActive {
        return;
      }
      var sinceLast := HoursBetween(lastTrainingTime, now);
      if sinceLast >= config.retrainingIntervalHours {
        var _ := PerformTraining(now);
      }
    }
  }

  /** Right after construction (or a successful training) at time `t`, the
      loop is not due again before a whole interval has passed. */
  lemma NotDueBeforeInterval(last: int, now: int, interval: int)
    requires interval > 0 && last <= now < last + interval * SecondsPerHour
    ensures HoursBetween(last, now) < interval
  {
    DueMeansIntervalElapsed(last, now, interval);
  }
}
