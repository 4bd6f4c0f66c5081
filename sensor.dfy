// The accelerometer driver that the feature-window callback pulls from.
// The Zephyr calls sensor_sample_fetch and sensor_channel_get are foreign
// code; they are modelled by a device whose k-th fetch delivers a result fixed
// in advance, so that every property proved about the callback holds for
// every behaviour of the sensor.

module Sensor {

  /** Zephyr's `struct sensor_value`: an integer part and a part in millionths. */
  datatype SensorValue = SensorValue(val1: int, val2: int)

  /** sensor_value_to_float, computed exactly (single-precision rounding is not modelled). */
  function ToFloat(v: SensorValue): real {
    v.val1 as real + v.val2 as real / 1000000.0
  }

  /** One latched sample: the x, y and z acceleration channels. */
  datatype Reading = Reading(x: SensorValue, y: SensorValue, z: SensorValue)

  /** What one fetch yields: a driver error, or the three channel values. */
  datatype Fetch = Failed | Sampled(reading: Reading)

  /** The ADXL362 device. The only state is the number of fetches made so far. */
  class Accelerometer {
    /** What the k-th fetch since start-up delivers. */
    const feed: nat -> Fetch
    /** How many fetches have been made so far. */
    var fetches: nat

    constructor (feed: nat -> Fetch)
      ensures this.feed == feed && fetches == 0
    {
      this.feed := feed;
      fetches := 0;
    }

    /** sensor_sample_fetch followed by sensor_channel_get on the three
        channels: consumes the next entry of the feed. */
    method SampleFetch() returns (f: Fetch)
      modifies this
      ensures fetches == old(fetches) + 1
      ensures f == feed(old(fetches))
    {
      f := feed(fetches);
      fetches := fetches + 1;
    }
  }
}
