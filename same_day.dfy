/** The GoSend Same Day delivery service: its slug, its label and the values
    its settings take when the shipping instance has none stored. */
module SameDayService {
  import opened Values

  const Slug: string := "same_day"

  const Label: string := "GoSend Same Day"

  /** Costs in rupiah, weight in kg, sizes in cm, distance in km. */
  function DefaultSettings(): map<string, SettingValue> {
    map[
      "per_km_cost" := Number(2500),
      "per_km_min_distance" := Number(15),
      "min_cost" := Number(15000),
      "max_cost" := Number(25000),
      "max_weight" := Number(7),
      "max_width" := Number(40),
      "max_length" := Number(40),
      "max_height" := Number(17),
      "max_distance" := Number(40)
    ]
  }
}
