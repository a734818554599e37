/** The app's fixed in-memory data set, used by the concrete lemmas about the shipped screens. */
module MockData {
  import opened Common
  import opened Records

  const Users: seq<User> := [
    User("1", "John Doe", "john@example.com", "Citizen", 25, 8,
         Some("Active community member helping keep our barangay clean"), Some("2023-06-15"),
         None, None),
    User("2", "Jane Smith", "jane@example.com", "Worker", 45, 15,
         Some("Professional environmental worker with 3 years experience"), Some("2022-03-10"),
         Some(150), Some(["Waste Management", "Drainage Cleaning", "Street Sweeping"])),
    User("3", "Maria Santos", "admin@lgu.gov.ph", "LGU", 0, 0,
         Some("LGU Administrator managing community cleanup initiatives"), Some("2021-01-01"),
         None, None)
  ]

  const Reports: seq<Report> := [
    Report("1", "Garbage pile in Barangay 1", "Large pile of mixed waste near the basketball court",
           Location(14.5995, 120.9842, "Barangay 1, Manila"), "pending", "1"),
    Report("2", "Drainage clogged in Barangay 2", "Drainage system blocked with plastic waste",
           Location(14.6000, 120.9850, "Barangay 2, Manila"), "approved", "2"),
    Report("3", "Illegal dumping in vacant lot", "Construction waste dumped in vacant lot",
           Location(14.5980, 120.9830, "Barangay 3, Manila"), "converted_to_task", "1")
  ]

  const Tasks: seq<Task> := [
    Task("1", "Cleanup Barangay 1 Basketball Court", "Remove garbage pile and clean the area",
         Location(14.5995, 120.9842, "Barangay 1, Manila"), "active", 500,
         Some("Safety vest, gloves, face mask"), Some("Trash bags, brooms, shovels")),
    Task("2", "Drainage Cleaning Barangay 2", "Unclog drainage system and remove waste",
         Location(14.6000, 120.9850, "Barangay 2, Manila"), "active", 800,
         Some("Safety vest, gloves, boots"), Some("Drainage tools, safety equipment")),
    Task("3", "Vacant Lot Cleanup", "Remove construction waste from vacant lot",
         Location(14.5980, 120.9830, "Barangay 3, Manila"), "upcoming", 1200,
         Some("Safety vest, gloves, hard hat"), Some("Heavy equipment, trucks"))
  ]

  const TaskApplications: seq<Application> := [
    Application("1", "1", "1", "approved"),
    Application("2", "1", "2", "pending"),
    Application("3", "2", "2", "approved")
  ]

  /** The completed-task fixture. It carries no outfit and no gear; its missing description
      is an empty string here, which renders the same. */
  const CompletedTasks: seq<Task> := [
    Task("4", "Beach Cleanup Drive", "", Location(14.5970, 120.9820, "Manila Bay, Manila"),
         "completed", 600, None, None)
  ]

  const Payments: seq<Payment> := [
    Payment("1", "4", 600, "completed")
  ]

  const Notifications: seq<Notification> := [
    Notification("1", "Task Approved", "Your application for \"Cleanup Barangay 1\" has been approved",
                 "success", false),
    Notification("2", "New Task Available", "New cleanup task available in your area", "info", true)
  ]
}
